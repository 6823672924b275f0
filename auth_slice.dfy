/** The client-side authentication session of frontend/src/features/authSlice.js:
    the value the four thunks reject with, the slice state `{user, loading}`, its
    case reducers (as a class whose methods assign the fields in place, and as
    the pure reducer that specifies them), and the store state after a sequence
    of dispatches. */
module AuthSlice {
  import opened Js

  // ---------------------------------------------------------------------------
  // Action types
  // ---------------------------------------------------------------------------

  /** The type prefixes given to `createAsyncThunk`, and the slice's name. */
  const LoginUserPrefix: string := "auth/login"
  const RegisterUserPrefix: string := "auth/register"
  const CheckAuthPrefix: string := "/auth/refresh"
  const LogoutUserPrefix: string := "/auth/logout"
  const SliceName: string := "auth"

  /** The three lifecycle action types a thunk dispatches. */
  function Pending(prefix: string): string { prefix + "/pending" }
  function Fulfilled(prefix: string): string { prefix + "/fulfilled" }
  function Rejected(prefix: string): string { prefix + "/rejected" }

  /** The type of the synchronous `logout` action: the slice name, then the reducer's name. */
  function LogoutType(): string { SliceName + "/logout" }

  /** A dispatched action. Actions without a payload carry `undefined`. */
  datatype Action = Action(actionType: string, payload: JsValue)

  /** The action types that have a case reducer: `logout`, then the extra reducers in
      the order they are added to the builder. */
  function HandledTypes(): seq<string> {
    [ LogoutType(),
      Pending(LoginUserPrefix), Fulfilled(LoginUserPrefix),
      Pending(RegisterUserPrefix), Fulfilled(RegisterUserPrefix),
      Fulfilled(CheckAuthPrefix),
      Fulfilled(LogoutUserPrefix) ]
  }

  /** No two case reducers share an action type, so each handled action selects
      exactly one of them. */
  lemma HandledTypesDistinct()
    ensures LogoutType() !in HandledTypes()[1..]
    ensures Pending(LoginUserPrefix) !in HandledTypes()[2..]
    ensures Fulfilled(LoginUserPrefix) !in HandledTypes()[3..]
    ensures Pending(RegisterUserPrefix) !in HandledTypes()[4..]
    ensures Fulfilled(RegisterUserPrefix) !in HandledTypes()[5..]
    ensures Fulfilled(CheckAuthPrefix) !in HandledTypes()[6..]
  {
    // Each assert fixes a length or one character of an action type; every two
    // types then differ in length or in one of the characters fixed here.
    var h := HandledTypes();
    assert h[0][0] == 'a' && |h[0]| == 11;
    assert h[1][5] == 'l' && |h[1]| == 18;
    assert h[2][5] == 'l' && |h[2]| == 20;
    assert h[3][5] == 'r' && |h[3]| == 21;
    assert h[4][0] == 'a' && |h[4]| == 23;
    assert h[5][0] == '/' && |h[5]| == 23;
    assert h[6][0] == '/' && |h[6]| == 22;
  }

  /** No thunk's `rejected` action, and neither `checkAuth.pending` nor
      `logoutUser.pending`, has a case reducer. */
  lemma UnregisteredLifecycleTypes()
    ensures Rejected(LoginUserPrefix) !in HandledTypes()
    ensures Rejected(RegisterUserPrefix) !in HandledTypes()
    ensures Rejected(CheckAuthPrefix) !in HandledTypes()
    ensures Rejected(LogoutUserPrefix) !in HandledTypes()
    ensures Pending(CheckAuthPrefix) !in HandledTypes()
    ensures Pending(LogoutUserPrefix) !in HandledTypes()
  {
    // As above: each unregistered type is told apart from every handled type by
    // its length or by one character fixed by these asserts.
    var h := HandledTypes();
    assert |h[0]| == 11 && |h[1]| == 18 && |h[2]| == 20 && |h[3]| == 21;
    assert |h[4]| == 23 && |h[5]| == 23 && |h[6]| == 22 && h[3][0] == 'a';
    assert h[1][11] == 'p' && h[2][11] == 'f';
    assert h[3][14] == 'p' && h[4][14] == 'f';
    assert h[5][14] == 'f' && h[6][13] == 'f';
    assert Rejected(LoginUserPrefix)[11] == 'r' && |Rejected(LoginUserPrefix)| == 19;
    assert Rejected(RegisterUserPrefix)[14] == 'r' && |Rejected(RegisterUserPrefix)| == 22;
    assert Rejected(CheckAuthPrefix)[14] == 'r' && |Rejected(CheckAuthPrefix)| == 22;
    assert Rejected(LogoutUserPrefix)[13] == 'r' && |Rejected(LogoutUserPrefix)| == 21;
    assert Pending(CheckAuthPrefix)[0] == '/' && |Pending(CheckAuthPrefix)| == 21;
    assert Pending(LogoutUserPrefix)[13] == 'p' && |Pending(LogoutUserPrefix)| == 20;
  }

  // ---------------------------------------------------------------------------
  // The rejection value of the thunks' catch blocks
  // ---------------------------------------------------------------------------

  /** `loginUser`'s rejection value: `error?.response?.data || error.message`. */
  function LoginRejectValue(error: JsValue): Completion {
    Or(OptionalGet(OptionalGet(error, "response"), "data"), Get(error, "message"))
  }

  /** `registerUser`, `checkAuth` and `logoutUser`: `error.response?.data || error.message`. */
  function RejectValue(error: JsValue): Completion {
    match Get(error, "response")
    case TypeError => TypeError
    case Normal(response) => Or(OptionalGet(response, "data"), Get(error, "message"))
  }

  /** The two spellings agree on every error value: the extra `?.` of `loginUser`
      only moves where a null or undefined error throws. */
  lemma RejectValueSpellingsAgree(error: JsValue)
    ensures LoginRejectValue(error) == RejectValue(error)
  {
  }

  /** The rule, for an error object: the response's data when the response is
      present and its data truthy, otherwise the error's message (undefined when
      it has none); a null or undefined error makes the catch block throw. */
  lemma RejectValueRule(error: JsValue)
    ensures error.Nullish() <==> RejectValue(error) == TypeError
    ensures error.Obj? && "response" in error.fields && error.fields["response"].Obj?
            && "data" in error.fields["response"].fields
            && error.fields["response"].fields["data"].Truthy()
            ==> RejectValue(error) == Normal(error.fields["response"].fields["data"])
    ensures error.Obj? && ("response" !in error.fields || error.fields["response"].Nullish())
            ==> RejectValue(error) == Normal(if "message" in error.fields then error.fields["message"] else Undefined)
    ensures !error.Nullish() && !OptionalGet(OptionalGet(error, "response"), "data").Truthy()
            ==> RejectValue(error) == Get(error, "message")
  {
  }

  // ---------------------------------------------------------------------------
  // State and reducer
  // ---------------------------------------------------------------------------

  /** The slice state. `user` holds whatever JavaScript value a reducer stored;
      a user counts as present where the application tests it, by truthiness. */
  datatype AuthState = AuthState(user: JsValue, loading: bool)

  /** `initialState`. */
  function Initial(): AuthState {
    AuthState(Null, false)
  }

  /** The login and register fulfilled reducers read `action.payload.User`, which
      throws when the payload is null or undefined. */
  predicate Throws(a: Action) {
    (a.actionType == Fulfilled(LoginUserPrefix) || a.actionType == Fulfilled(RegisterUserPrefix))
    && a.payload.Nullish()
  }

  /** The slice reducer: the state after dispatching `a` in state `s`. A case
      reducer that throws has its draft discarded, so the state stays `s`; an
      action type without a case reducer leaves `s` as it is. */
  function Reduce(s: AuthState, a: Action): AuthState {
    var t := a.actionType;
    if t == LogoutType() then
      s.(user := Null)
    else if t == Pending(LoginUserPrefix) || t == Pending(RegisterUserPrefix) then
      s.(loading := true)
    else if t == Fulfilled(LoginUserPrefix) || t == Fulfilled(RegisterUserPrefix) then
      match Get(a.payload, "User")
      case TypeError => s
      case Normal(u) => AuthState(u, false)
    else if t == Fulfilled(CheckAuthPrefix) then
      s.(user := a.payload)
    else if t == Fulfilled(LogoutUserPrefix) then
      AuthState(Null, false)
    else
      s
  }

  /** The write table: what an action stores into `user`, per action type, or
      None when it leaves `user` alone. */
  function UserWrite(a: Action): Option<JsValue> {
    var t := a.actionType;
    if t == LogoutType() || t == Fulfilled(LogoutUserPrefix) then Some(Null)
    else if t == Fulfilled(CheckAuthPrefix) then Some(a.payload)
    else if Throws(a) then None
    else if t == Fulfilled(LoginUserPrefix) || t == Fulfilled(RegisterUserPrefix) then
      Some(OptionalGet(a.payload, "User"))
    else None
  }

  /** The write table for `loading`. */
  function LoadingWrite(a: Action): Option<bool> {
    var t := a.actionType;
    if t == Pending(LoginUserPrefix) || t == Pending(RegisterUserPrefix) then Some(true)
    else if t == Fulfilled(LogoutUserPrefix) then Some(false)
    else if Throws(a) then None
    else if t == Fulfilled(LoginUserPrefix) || t == Fulfilled(RegisterUserPrefix) then Some(false)
    else None
  }

  /** An action that writes neither field has no case reducer, or is a login or
      register success whose reducer throws. */
  lemma NoWriteMeansUnhandledOrThrows(a: Action)
    ensures UserWrite(a) == None && LoadingWrite(a) == None
            <==> a.actionType !in HandledTypes() || Throws(a)
  {
    HandledTypesDistinct();
  }

  /** The reducer stores exactly what the write table says, field by field, and
      keeps every field the table leaves alone. */
  lemma ReduceFollowsWrites(s: AuthState, a: Action)
    ensures Reduce(s, a) == AuthState(UserWrite(a).GetOr(s.user), LoadingWrite(a).GetOr(s.loading))
  {
    HandledTypesDistinct();
  }

  /** A rejected thunk leaves the state as it was, whatever it rejected with. */
  lemma RejectedLeavesState(s: AuthState, a: Action)
    requires a.actionType in {Rejected(LoginUserPrefix), Rejected(RegisterUserPrefix),
                              Rejected(CheckAuthPrefix), Rejected(LogoutUserPrefix)}
    ensures Reduce(s, a) == s
  {
    UnregisteredLifecycleTypes();
    ReduceFollowsWrites(s, a);
    NoWriteMeansUnhandledOrThrows(a);
  }

  /** Logging out twice is logging out once, for both logout transitions and any payloads. */
  lemma LogoutIdempotent(s: AuthState, p: JsValue, q: JsValue)
    ensures Reduce(Reduce(s, Action(LogoutType(), p)), Action(LogoutType(), q))
            == Reduce(s, Action(LogoutType(), p))
    ensures Reduce(Reduce(s, Action(Fulfilled(LogoutUserPrefix), p)), Action(Fulfilled(LogoutUserPrefix), q))
            == Reduce(s, Action(Fulfilled(LogoutUserPrefix), p))
  {
    ReduceFollowsWrites(s, Action(LogoutType(), p));
    ReduceFollowsWrites(Reduce(s, Action(LogoutType(), p)), Action(LogoutType(), q));
    ReduceFollowsWrites(s, Action(Fulfilled(LogoutUserPrefix), p));
  }

  // ---------------------------------------------------------------------------
  // The store over a sequence of dispatches
  // ---------------------------------------------------------------------------

  /** The state after dispatching `actions` in order, starting in `s`. */
  function Replay(s: AuthState, actions: seq<Action>): AuthState
    decreases |actions|
  {
    if actions == [] then s
    else Reduce(Replay(s, actions[..|actions| - 1]), actions[|actions| - 1])
  }

  /** With no action writing `user`, it keeps its starting value. */
  lemma {:induction false} UserUnwritten(s: AuthState, actions: seq<Action>)
    requires forall i :: 0 <= i < |actions| ==> UserWrite(actions[i]) == None
    ensures Replay(s, actions).user == s.user
    decreases |actions|
  {
    if actions != [] {
      var k := |actions| - 1;
      UserUnwritten(s, actions[..k]);
      ReduceFollowsWrites(Replay(s, actions[..k]), actions[k]);
    }
  }

  /** `user` holds what the last action that writes it wrote. */
  lemma {:induction false} UserLastWrite(s: AuthState, actions: seq<Action>, i: nat)
    requires i < |actions| && UserWrite(actions[i]).Some?
    requires forall j :: i < j < |actions| ==> UserWrite(actions[j]) == None
    ensures Replay(s, actions).user == UserWrite(actions[i]).value
    decreases |actions|
  {
    var k := |actions| - 1;
    ReduceFollowsWrites(Replay(s, actions[..k]), actions[k]);
    if i < k {
      UserLastWrite(s, actions[..k], i);
    }
  }

  /** With no action writing `loading`, it keeps its starting value. */
  lemma {:induction false} LoadingUnwritten(s: AuthState, actions: seq<Action>)
    requires forall i :: 0 <= i < |actions| ==> LoadingWrite(actions[i]) == None
    ensures Replay(s, actions).loading == s.loading
    decreases |actions|
  {
    if actions != [] {
      var k := |actions| - 1;
      LoadingUnwritten(s, actions[..k]);
      ReduceFollowsWrites(Replay(s, actions[..k]), actions[k]);
    }
  }

  /** `loading` holds what the last action that writes it wrote. */
  lemma {:induction false} LoadingLastWrite(s: AuthState, actions: seq<Action>, i: nat)
    requires i < |actions| && LoadingWrite(actions[i]).Some?
    requires forall j :: i < j < |actions| ==> LoadingWrite(actions[j]) == None
    ensures Replay(s, actions).loading == LoadingWrite(actions[i]).value
    decreases |actions|
  {
    var k := |actions| - 1;
    ReduceFollowsWrites(Replay(s, actions[..k]), actions[k]);
    if i < k {
      LoadingLastWrite(s, actions[..k], i);
    }
  }

  /** Actions that have no case reducer (every `rejected`, any unlisted type)
      leave the state unchanged however many are dispatched. */
  lemma UnhandledReplay(s: AuthState, actions: seq<Action>)
    requires forall i :: 0 <= i < |actions| ==> actions[i].actionType !in HandledTypes()
    ensures Replay(s, actions) == s
  {
    forall i | 0 <= i < |actions|
      ensures UserWrite(actions[i]) == None && LoadingWrite(actions[i]) == None
    {
      NoWriteMeansUnhandledOrThrows(actions[i]);
    }
    UserUnwritten(s, actions);
    LoadingUnwritten(s, actions);
  }

  /** Starting the application with no session: `checkAuth` pending and rejected,
      repeated any number of times, keep the initial state, so `user` stays null. */
  lemma CheckAuthWithoutSession(actions: seq<Action>)
    requires forall i :: 0 <= i < |actions| ==>
               actions[i].actionType in {Pending(CheckAuthPrefix), Rejected(CheckAuthPrefix)}
    ensures Replay(Initial(), actions) == Initial()
    ensures Replay(Initial(), actions).user == Null
  {
    UnregisteredLifecycleTypes();
    UnhandledReplay(Initial(), actions);
  }

  /** A login or register that fails leaves `loading` true: its pending action
      sets it, and neither the rejection nor any later unhandled action clears it. */
  lemma FailedSubmitKeepsLoading(s: AuthState, prefix: string, p: JsValue, error: JsValue, rest: seq<Action>)
    requires prefix == LoginUserPrefix || prefix == RegisterUserPrefix
    requires forall i :: 0 <= i < |rest| ==> rest[i].actionType !in HandledTypes()
    ensures Replay(s, [Action(Pending(prefix), p), Action(Rejected(prefix), error)] + rest)
            == AuthState(s.user, true)
  {
    var actions := [Action(Pending(prefix), p), Action(Rejected(prefix), error)] + rest;
    UnregisteredLifecycleTypes();
    HandledTypesDistinct();
    assert LoadingWrite(actions[0]) == Some(true);
    forall i | 0 <= i < |actions|
      ensures UserWrite(actions[i]) == None
      ensures 0 < i ==> LoadingWrite(actions[i]) == None
    {
      NoWriteMeansUnhandledOrThrows(actions[i]);
    }
    LoadingLastWrite(s, actions, 0);
    UserUnwritten(s, actions);
  }

  /** After `logoutUser.fulfilled`, from any history, the state is the logged-out
      state until an action writes a field again. */
  lemma LogoutUserFulfilledEndsSession(s: AuthState, actions: seq<Action>, i: nat)
    requires i < |actions| && actions[i].actionType == Fulfilled(LogoutUserPrefix)
    requires forall j :: i < j < |actions| ==> UserWrite(actions[j]) == None && LoadingWrite(actions[j]) == None
    ensures Replay(s, actions) == AuthState(Null, false)
  {
    HandledTypesDistinct();
    UserLastWrite(s, actions, i);
    LoadingLastWrite(s, actions, i);
  }

  // ---------------------------------------------------------------------------
  // The case reducers, assigning the state's fields in place
  // ---------------------------------------------------------------------------

  /** The slice's state object. Each method is one case reducer; `Dispatch` is the
      reducer that selects the case by action type. */
  class AuthSession {
    var user: JsValue
    var loading: bool

    /** `initialState`: no user, not loading. */
    constructor ()
      ensures user == Null && !loading
      ensures State() == Initial()
    {
      user := Null;
      loading := false;
    }

    function State(): AuthState
      reads this
    {
      AuthState(user, loading)
    }

    /** `logout`: clears the user; `loading` is deliberately left alone. */
    method Logout()
      modifies this
      ensures user == Null && loading == old(loading)
    {
      user := Null;
    }

    /** `loginUser.pending`. */
    method LoginUserPending()
      modifies this
      ensures loading && user == old(user)
    {
      loading := true;
    }

    /** `loginUser.fulfilled`: clears `loading`, then stores `payload.User`. A
        null or undefined payload throws, and the discarded draft leaves both
        fields as they were. */
    method LoginUserFulfilled(payload: JsValue) returns (threw: bool)
      modifies this
      ensures threw <==> payload.Nullish()
      ensures threw ==> user == old(user) && loading == old(loading)
      ensures !threw ==> user == OptionalGet(payload, "User") && !loading
    {
      match Get(payload, "User")
      case TypeError =>
        threw := true;
      case Normal(u) =>
        threw := false;
        loading := false;
        user := u;
    }

    /** `registerUser.pending`. */
    method RegisterUserPending()
      modifies this
      ensures loading && user == old(user)
    {
      loading := true;
    }

    /** `registerUser.fulfilled`: stores `payload.User`, then clears `loading`;
        a null or undefined payload throws and changes nothing. */
    method RegisterUserFulfilled(payload: JsValue) returns (threw: bool)
      modifies this
      ensures threw <==> payload.Nullish()
      ensures threw ==> user == old(user) && loading == old(loading)
      ensures !threw ==> user == OptionalGet(payload, "User") && !loading
    {
      match Get(payload, "User")
      case TypeError =>
        threw := true;
      case Normal(u) =>
        threw := false;
        user := u;
        loading := false;
    }

    /** `checkAuth.fulfilled`: stores the whole payload; `loading` is untouched. */
    method CheckAuthFulfilled(payload: JsValue)
      modifies this
      ensures user == payload && loading == old(loading)
    {
      user := payload;
    }

    /** `logoutUser.fulfilled`: no user, not loading, from any state. */
    method LogoutUserFulfilled()
      modifies this
      ensures user == Null && !loading
    {
      user := Null;
      loading := false;
    }

    /** The slice reducer applied to this state: runs the case reducer registered
        for the action's type, if any. */
    method Dispatch(a: Action) returns (threw: bool)
      modifies this
      ensures threw == Throws(a)
      ensures State() == Reduce(old(State()), a)
      ensures user == UserWrite(a).GetOr(old(user))
      ensures loading == LoadingWrite(a).GetOr(old(loading))
    {
      ghost var before := State();
      var t := a.actionType;
      threw := false;
      if t == LogoutType() {
        Logout();
      } else if t == Pending(LoginUserPrefix) {
        LoginUserPending();
      } else if t == Fulfilled(LoginUserPrefix) {
        threw := LoginUserFulfilled(a.payload);
      } else if t == Pending(RegisterUserPrefix) {
        RegisterUserPending();
      } else if t == Fulfilled(RegisterUserPrefix) {
        threw := RegisterUserFulfilled(a.payload);
      } else if t == Fulfilled(CheckAuthPrefix) {
        CheckAuthFulfilled(a.payload);
      } else if t == Fulfilled(LogoutUserPrefix) {
        LogoutUserFulfilled();
      }
      HandledTypesDistinct();
      ReduceFollowsWrites(before, a);
    }
  }
}
