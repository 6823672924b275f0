# Client session state and route guard of a to-do application

This project models the client side of the application's authentication session:

- the Redux slice `auth` (`frontend/src/features/authSlice.js`): its state `{user, loading}`, its case reducers, and the value its four async thunks reject with;
- the route table of `App` (`frontend/src/App.jsx`), which reads `user` to decide, for each path, whether to render a page or redirect.

Files:

- `js.dfy` (module `Js`): the JavaScript values the code handles, with `undefined`, `null` and JSON data. It also defines truthiness (what `x ? a : b` and `x || y` test), property access `v.k` (throws on null and undefined), optional chaining `v?.k`, and `||`.
- `auth_slice.dfy` (module `AuthSlice`):
  - the action type strings, built from the prefixes given to `createAsyncThunk` and from the slice name;
  - the rejection-value rule;
  - the pure reducer `Reduce` with a per-field write table (`UserWrite`, `LoadingWrite`) that it is proved to follow;
  - `Replay`, the store state after a sequence of dispatches;
  - the class `AuthSession`. Its fields `user` and `loading` are assigned in place by one method per case reducer, and `Dispatch` selects the case by action type and is proved equal to `Reduce`.
- `app.dfy` (module `App`): the route table `Route`, redirect-following `Resolve`, and lemmas about the pages reachable for a given `user`. Further lemmas tie the route table to the reducer.

Quirks of the code that the model keeps:

- Login and register success store `payload.User` (capital U). A success payload with a lowercase `user` field, such as `{user, accessToken}`, leaves `user` undefined (`App.LowercaseUserPayloadStaysSignedOut`).
- `checkAuth` success stores the whole payload, not one of its fields. Any object payload therefore counts as a signed-in user (`App.CheckAuthObjectSignsIn`).
- No `rejected` case is registered, so a failed request changes nothing. After a failed login or register, `loading` stays true (`AuthSlice.FailedSubmitKeepsLoading`).
- The synchronous `logout` leaves `loading` unchanged, because the line that would clear it is commented out.

A user is "present" wherever the application tests it, and it tests by JavaScript truthiness (`user ? … : …`). The state's `user` is therefore a `JsValue`, not an option type. `null` and `undefined` count as absent, and so does any other falsy value that a `checkAuth` payload might carry.

A login or register success whose payload is `null` or `undefined` throws in `payload.User`. The reducer's draft is then discarded, so the model leaves the state unchanged and reports `threw`.

## Model

| member | source | states |
|---|---|---|
| `AuthSlice.AuthSession.constructor` | frontend/src/features/authSlice.js:42-45 | the initial state has `user` null and `loading` false |
| `AuthSlice.AuthSession.Logout` | frontend/src/features/authSlice.js:48-52 | synchronous logout sets `user` to null and keeps `loading` as it was |
| `AuthSlice.AuthSession.LoginUserPending` | frontend/src/features/authSlice.js:58-60 | login pending sets `loading` true and leaves `user` unchanged |
| `AuthSlice.AuthSession.LoginUserFulfilled` | frontend/src/features/authSlice.js:61-64 | login success stores the payload's `User` field and clears `loading`; a null or undefined payload throws and changes nothing |
| `AuthSlice.AuthSession.RegisterUserPending` | frontend/src/features/authSlice.js:67-69 | register pending sets `loading` true and leaves `user` unchanged |
| `AuthSlice.AuthSession.RegisterUserFulfilled` | frontend/src/features/authSlice.js:70-73 | register success stores the payload's `User` field and clears `loading`; a null or undefined payload throws and changes nothing |
| `AuthSlice.AuthSession.CheckAuthFulfilled` | frontend/src/features/authSlice.js:75-77 | session check success stores the entire payload as `user` and leaves `loading` unchanged |
| `AuthSlice.AuthSession.LogoutUserFulfilled` | frontend/src/features/authSlice.js:79-82 | logout success gives `user` null and `loading` false from any state |
| `AuthSlice.AuthSession.Dispatch` | frontend/src/features/authSlice.js:40-84 | dispatching any action updates the fields exactly as the reducer and the write table say, and throws exactly when `Throws` holds |
| `AuthSlice.HandledTypesDistinct` | frontend/src/features/authSlice.js:40-83 | the seven action types with a case reducer are pairwise distinct, so each action selects at most one case |
| `AuthSlice.UnregisteredLifecycleTypes` | frontend/src/features/authSlice.js:55-83 | no `rejected` type, and neither the session check's nor logout's `pending` type, has a case reducer |
| `AuthSlice.RejectValueSpellingsAgree` | frontend/src/features/authSlice.js:8-18 | the login thunk's rule, which reads `error?.response`, gives the same value as the other thunks' rule, which reads `error.response`, for every error value |
| `AuthSlice.RejectValueRule` | frontend/src/features/authSlice.js:17-19 | the rejection value is the response data when present and truthy, otherwise the error message; a null or undefined error throws |
| `AuthSlice.NoWriteMeansUnhandledOrThrows` | frontend/src/features/authSlice.js:55-83 | an action writes neither field if and only if its type has no case reducer or its reducer throws |
| `AuthSlice.ReduceFollowsWrites` | frontend/src/features/authSlice.js:47-83 | the reducer's new state is exactly the write table applied to the old state: written fields take the written value, the others are kept |
| `AuthSlice.RejectedLeavesState` | frontend/src/features/authSlice.js:55-83 | any rejected thunk action leaves the state unchanged, whatever value it carries |
| `AuthSlice.LogoutIdempotent` | frontend/src/features/authSlice.js:48-82 | applying either logout transition twice gives the same state as applying it once |
| `AuthSlice.UserUnwritten` | frontend/src/features/authSlice.js:40-84 | over any sequence of dispatches that never writes `user`, `user` keeps its starting value |
| `AuthSlice.UserLastWrite` | frontend/src/features/authSlice.js:40-84 | after any sequence of dispatches, `user` holds the value written by the last action that writes it |
| `AuthSlice.LoadingUnwritten` | frontend/src/features/authSlice.js:40-84 | over any sequence of dispatches that never writes `loading`, `loading` keeps its starting value |
| `AuthSlice.LoadingLastWrite` | frontend/src/features/authSlice.js:40-84 | after any sequence of dispatches, `loading` holds the value written by the last action that writes it |
| `AuthSlice.UnhandledReplay` | frontend/src/features/authSlice.js:55-83 | any number of actions without a case reducer leave the state unchanged |
| `AuthSlice.CheckAuthWithoutSession` | frontend/src/features/authSlice.js:75-77 | repeated session checks that fail keep the initial state, so `user` stays null |
| `AuthSlice.FailedSubmitKeepsLoading` | frontend/src/features/authSlice.js:58-73 | a pending login or register followed by its rejection, and then any unhandled actions, leaves `loading` true and `user` unchanged |
| `AuthSlice.LogoutUserFulfilledEndsSession` | frontend/src/features/authSlice.js:79-82 | after logout success the state is null/false until some action writes a field again |
| `App.Route` | frontend/src/App.jsx:22-37 | `/signup` renders Register iff there is no user, `/` renders Tasks iff there is one, `/login` renders Login iff there is none; the other listed cases redirect to `/` with a user and to `/login` without; unlisted paths match no route |
| `App.NoRedirectLoop` | frontend/src/App.jsx:23-36 | from any listed path, at most one redirect reaches a rendered page, and following more redirects changes nothing |
| `App.Landing` | frontend/src/App.jsx:22-37 | every listed path ends, after one redirect at most, on a rendered page |
| `App.PagesExclusive` | frontend/src/App.jsx:25-35 | whatever the number of redirects, Tasks is shown only with a user and Login or Register only without one |
| `App.LandingByUser` | frontend/src/App.jsx:23-36 | with a user every listed path lands on Tasks; without one `/signup` lands on Register and `/` and `/login` on Login |
| `App.LogoutLeadsToLogin` | frontend/src/App.jsx:28-31 | after logout success or the synchronous logout, from any state, `/` leads to the Login page |
| `App.SessionEndsAtLogout` | frontend/src/App.jsx:28-31 | after any history whose last write to `user` is a logout, `/` leads to the Login page |
| `App.SignedInAfterUserField` | frontend/src/features/authSlice.js:61-73 | a login or register success whose payload has a truthy `User` field makes every listed path land on Tasks |
| `App.LowercaseUserPayloadStaysSignedOut` | frontend/src/features/authSlice.js:61-73 | a success payload shaped `{user, accessToken}` leaves `user` undefined and `loading` false, and `/` lands on Login |
| `App.CheckAuthObjectSignsIn` | frontend/src/features/authSlice.js:75-77 | a session check success with any object payload stores it and makes every listed path land on Tasks |

## Left out

- The HTTP requests inside the thunks (`axios.post`, `axios.get`) are network I/O. A response body is a parameter of the fulfilled action, and an error object is a parameter of the rejection rule.
- How Redux Toolkit's `createAsyncThunk` builds the `rejected` action when the catch block itself throws is library code and is not modelled. The reducer ignores every `rejected` action whatever it carries.
- Async ordering, double submits and interleaved requests are not modelled. Each dispatch is one atomic transition, and a sequence of dispatches is modelled by `Replay`.
- The `useEffect` that dispatches the session check on mount is a framework lifecycle effect. `CheckAuthWithoutSession` covers its outcome when no session exists.
- React Router's path matching is modelled as exact string equality. Case-insensitive matching, trailing-slash normalisation and nested routes are library behaviour and are not modelled.
- JavaScript numbers are modelled as reals, so NaN and -0 (both falsy) are not represented. Properties of strings and arrays such as `length` are not modelled; the code reads none of them.
- The pages, navbar and entry point (`Login.jsx`, `Register.jsx`, `Navbar.jsx`, `main.jsx`) are UI markup that only dispatches actions.
- The backend (`backend/src/index.js`) is server bootstrap. Its token issuer, session controller and JWT guard live in files that are not part of this model, so token minting and verification, password hashing, refresh and logout on the server are not modelled.
