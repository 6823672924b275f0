/** The route table of frontend/src/App.jsx: for each path, the element shown
    given the slice's `user` (tested by truthiness), and how it composes with the
    auth reducer. */
module App {
  import opened Js
  import AuthSlice

  datatype Page = Register | Tasks | Login

  /** What a route renders: a page, a `<Navigate to=...>` redirect, or nothing,
      when no route matches the path. */
  datatype Element = Render(page: Page) | Navigate(to: string) | NoRoute

  /** The three paths that have a route. */
  predicate Listed(path: string) {
    path == "/signup" || path == "/" || path == "/login"
  }

  /** The `<Routes>` table: `/signup` and `/login` show their form only without a
      user and send a signed-in user to `/`; `/` shows the task list only with a
      user and sends everyone else to `/login`. */
  function Route(path: string, user: JsValue): (e: Element)
    ensures e == Render(Register) <==> path == "/signup" && !user.Truthy()
    ensures e == Render(Tasks) <==> path == "/" && user.Truthy()
    ensures e == Render(Login) <==> path == "/login" && !user.Truthy()
    ensures e.Navigate? <==> Listed(path) && (path == "/" <==> !user.Truthy())
    ensures e.Navigate? ==> e.to == (if user.Truthy() then "/" else "/login")
    ensures e == NoRoute <==> !Listed(path)
  {
    if path == "/signup" then
      if !user.Truthy() then Render(Register) else Navigate("/")
    else if path == "/" then
      if user.Truthy() then Render(Tasks) else Navigate("/login")
    else if path == "/login" then
      if !user.Truthy() then Render(Login) else Navigate("/")
    else
      NoRoute
  }

  /** The element shown for `path` after following at most `hops` redirects,
      with `user` fixed while they are followed. */
  function Resolve(path: string, user: JsValue, hops: nat): Element
    decreases hops
  {
    match Route(path, user)
    case Navigate(to) => if hops == 0 then Navigate(to) else Resolve(to, user, hops - 1)
    case e => e
  }

  /** No redirect loop: from a listed path, one redirect at most reaches a rendered
      page, and following more redirects changes nothing. */
  lemma {:induction false} NoRedirectLoop(path: string, user: JsValue, hops: nat)
    requires Listed(path) && hops >= 1
    ensures Resolve(path, user, hops).Render?
    ensures Resolve(path, user, hops) == Resolve(path, user, 1)
    ensures Route(path, user).Navigate? ==> Route(Route(path, user).to, user).Render?
  {
    // The redirect target always renders: `/` or `/login`, chosen by the same user.
    var e := Route(path, user);
    if e.Navigate? {
      assert Route(e.to, user).Render?;
    }
  }

  /** The page a listed path finally shows. */
  function Landing(path: string, user: JsValue): (p: Page)
    requires Listed(path)
    ensures Resolve(path, user, 1) == Render(p)
  {
    NoRedirectLoop(path, user, 1);
    Resolve(path, user, 1).page
  }

  /** Tasks is shown only with a user, Login and Register only without one, however
      many redirects are followed; so the two sets of pages never overlap. */
  lemma {:induction false} PagesExclusive(path: string, user: JsValue, hops: nat)
    ensures Resolve(path, user, hops) == Render(Tasks) ==> user.Truthy()
    ensures Resolve(path, user, hops) == Render(Login) ==> !user.Truthy()
    ensures Resolve(path, user, hops) == Render(Register) ==> !user.Truthy()
    decreases hops
  {
    match Route(path, user)
    case Navigate(to) =>
      if hops > 0 {
        PagesExclusive(to, user, hops - 1);
      }
    case _ =>
  }

  /** With a user, every listed path lands on Tasks; without one, `/signup` lands
      on Register and the other two on Login. */
  lemma LandingByUser(path: string, user: JsValue)
    requires Listed(path)
    ensures user.Truthy() ==> Landing(path, user) == Tasks
    ensures !user.Truthy() ==> Landing(path, user) == (if path == "/signup" then Register else Login)
  {
    NoRedirectLoop(path, user, 1);
    PagesExclusive(path, user, 1);
  }

  // ---------------------------------------------------------------------------
  // The route table over the reducer's states
  // ---------------------------------------------------------------------------

  /** After `logoutUser.fulfilled` or `logout`, from any state, `/` leads to the
      Login page. */
  lemma LogoutLeadsToLogin(s: AuthSlice.AuthState, p: JsValue)
    ensures Landing("/", AuthSlice.Reduce(s, AuthSlice.Action(AuthSlice.Fulfilled(AuthSlice.LogoutUserPrefix), p)).user) == Login
    ensures Landing("/", AuthSlice.Reduce(s, AuthSlice.Action(AuthSlice.LogoutType(), p)).user) == Login
  {
    AuthSlice.ReduceFollowsWrites(s, AuthSlice.Action(AuthSlice.Fulfilled(AuthSlice.LogoutUserPrefix), p));
    AuthSlice.ReduceFollowsWrites(s, AuthSlice.Action(AuthSlice.LogoutType(), p));
    LandingByUser("/", Null);
  }

  /** The same after any history whose last write to `user` is a logout. */
  lemma SessionEndsAtLogout(s: AuthSlice.AuthState, actions: seq<AuthSlice.Action>, i: nat)
    requires i < |actions|
    requires actions[i].actionType in {AuthSlice.Fulfilled(AuthSlice.LogoutUserPrefix), AuthSlice.LogoutType()}
    requires forall j :: i < j < |actions| ==> AuthSlice.UserWrite(actions[j]) == None
    ensures Landing("/", AuthSlice.Replay(s, actions).user) == Login
  {
    AuthSlice.UserLastWrite(s, actions, i);
    LandingByUser("/", Null);
  }

  /** A login or register success whose payload has a truthy `User` field signs
      the user in: every listed path lands on Tasks. */
  lemma SignedInAfterUserField(s: AuthSlice.AuthState, prefix: string, fields: map<string, JsValue>, path: string)
    requires prefix == AuthSlice.LoginUserPrefix || prefix == AuthSlice.RegisterUserPrefix
    requires "User" in fields && fields["User"].Truthy()
    requires Listed(path)
    ensures Landing(path, AuthSlice.Reduce(s, AuthSlice.Action(AuthSlice.Fulfilled(prefix), Obj(fields))).user) == Tasks
  {
    var a := AuthSlice.Action(AuthSlice.Fulfilled(prefix), Obj(fields));
    AuthSlice.ReduceFollowsWrites(s, a);
    LandingByUser(path, AuthSlice.Reduce(s, a).user);
  }

  /** Because the login and register reducers read `User` with a capital U, a
      success payload shaped `{user, accessToken}` stores `undefined`, from any
      state: `/` then lands on Login, so such a login signs nobody in. */
  lemma LowercaseUserPayloadStaysSignedOut(s: AuthSlice.AuthState, prefix: string, u: JsValue, token: JsValue)
    requires prefix == AuthSlice.LoginUserPrefix || prefix == AuthSlice.RegisterUserPrefix
    ensures AuthSlice.Reduce(s, AuthSlice.Action(AuthSlice.Fulfilled(prefix),
              Obj(map["user" := u, "accessToken" := token]))) == AuthSlice.AuthState(Undefined, false)
    ensures Landing("/", AuthSlice.Reduce(s, AuthSlice.Action(AuthSlice.Fulfilled(prefix),
              Obj(map["user" := u, "accessToken" := token]))).user) == Login
  {
    var payload := Obj(map["user" := u, "accessToken" := token]);
    assert "User"[0] != "user"[0] && "User"[0] != "accessToken"[0];
    assert "User" !in payload.fields;
    AuthSlice.ReduceFollowsWrites(s, AuthSlice.Action(AuthSlice.Fulfilled(prefix), payload));
    LandingByUser("/", Undefined);
  }

  /** `checkAuth.fulfilled` stores the whole payload, so any object payload (such
      as `{user}`) signs the user in, whatever it holds. */
  lemma CheckAuthObjectSignsIn(s: AuthSlice.AuthState, fields: map<string, JsValue>, path: string)
    requires Listed(path)
    ensures AuthSlice.Reduce(s, AuthSlice.Action(AuthSlice.Fulfilled(AuthSlice.CheckAuthPrefix), Obj(fields)))
            == s.(user := Obj(fields))
    ensures Landing(path, AuthSlice.Reduce(s, AuthSlice.Action(AuthSlice.Fulfilled(AuthSlice.CheckAuthPrefix), Obj(fields))).user) == Tasks
  {
    AuthSlice.ReduceFollowsWrites(s, AuthSlice.Action(AuthSlice.Fulfilled(AuthSlice.CheckAuthPrefix), Obj(fields)));
    LandingByUser(path, Obj(fields));
  }
}
