# Session store, auth gate, login form and auth endpoints — a Dafny model

This project models the authentication core of a small React + Flask
application:

- the client's **session store** (`src/front/store.js`): the initial store read
  from session storage, and the reducer with its five actions (`set_hello`,
  `add_task`, `login`, `logout`, `set_user`) plus the error for any other action.
  Session storage's `token` entry is an explicit part of the model: the reducer
  returns the next store together with the next stored token (`Store.Reduce`),
  and `Store.GlobalStore` holds both and is updated in place by `Dispatch`;
- the **private page** (`src/front/pages/Private.jsx`): an auth gate that, on
  mount, either redirects to `/login` without a request (no token) or sends one
  `GET /api/token/validate` with `Authorization: Bearer <token>` (section 2.1 of
  RFC 6750) and then either stores the returned user and drops the spinner or
  logs out and redirects; the logout button; and the render guard;
- the **login form** (`src/front/pages/Login.jsx`): the submit handler, with its
  `error` and `loading` updates, the `login` dispatch and the move to `/private`;
  and what the form renders;
- the **API endpoints** (`src/api/routes.py`) `signup`, `login`,
  `validate_token` and `get_user`, as guard chains over the user table.

The pages are classes (`PrivatePage.Gate`, `LoginPage.Form`) whose methods
change their component state (`loading`, `error`, the route they navigated to)
and the global store step by step, and record each step in a `trace` of
`Effects.Effect` values (request sent, action dispatched, state set,
navigation). Each handler is specified by a script function
(`PrivatePage.ValidationScript`, `LoginPage.SubmitScript`): the method's trace
grows by that script, its component state is `Effects.Settle` of the script, and
the global store is the reducer run over the actions the script dispatches
(`Store.Run` of `Effects.Dispatched`). What the source promises is then proved
about the scripts.

The user table is a sequence of rows (`Routes.Row`) so that `first()` has a
meaning; `UserTable.Valid` keeps ids positive and unique and emails unique, and
`Signup` preserves it. `login`, `validate_token` and `get_user` only read the
table and are functions of it.

Modelling notes:

- JavaScript's `sessionStorage.getItem("token") || null` reads an empty stored
  string as no token. So the store's token equals the stored value right after
  load only when storage does not hold `""`; what always holds, from load and
  across any sequence of dispatches, is agreement up to that reading
  (`Store.Agrees`). Each reducer arm also keeps exact equality when it held before.
- The rule "no user without a token" is not kept by the reducer itself:
  `set_user` on a store without a token produces a user without a token
  (`Store.SetUserWithoutToken`). The code is followed here. The pages still
  keep the rule: the private page dispatches `set_user` only while the store
  holds a token (`PrivatePage.GateKeepsUserNeedsToken`), and the login form
  dispatches only `login`, which installs a token with the user
  (`LoginPage.SubmitKeepsUserNeedsToken`).
- The reducer's unknown-action exception is the error value `Fault.UnknownAction`.
  An `Unrecognised` action carries a `type` string that is none of the five
  known ones (`Store.UnknownKind`), so the `type` string alone decides the arm.
  In this model, `GlobalStore.Dispatch` reports the fault and leaves store and
  storage as they were, and later dispatches start from there; agreement of
  token and storage is its invariant (`GlobalStore.Valid`) across every
  history, faults included. The code that calls the reducer is not part of
  this model, so what the running application does after an uncaught reducer
  error (React normally unmounts the component tree) is not modelled. `Store.Run` is the other reading, a history that stops at the
  first unknown action; the lemmas about `Run` cover only histories without one.
- Password hashing is a pair of function parameters (`Passwords.hash`,
  `Passwords.check`) and token issuance a function parameter `issue` of the
  user id; the JWT identity of a request is a parameter of `ValidateToken` and
  `GetUser`.
- `User.serialize()` (in the user model, which is not part of this model) is
  taken to be the user's id and email.

## Model

| member | source | states |
|---|---|---|
| Store.InitialStore | src/front/store.js:1-19 | message and user are null, the token is the stored token or null when absent or empty, and there are two todos with ids 1 and 2 and null backgrounds |
| Store.InitialStoreAgrees | src/front/store.js:16 | the loaded store agrees with storage, and holds exactly the stored value unless that value is the empty string |
| Store.Paint | src/front/store.js:29-34 | `add_task`'s list keeps its length, every entry keeps id and title, entries with the payload id get the colour as background and the others keep theirs |
| Store.PaintKeepsOthers | src/front/store.js:33 | an entry whose id differs from the payload's is unchanged |
| Store.PaintAbsentId | src/front/store.js:33 | with an id no entry carries, the list is unchanged |
| Store.Reduce | src/front/store.js:21-61 | the reducer fails exactly when the action's `type` is none of the five known strings, with that type as the error; every arm other than login/logout keeps token and storage; no arm changes the number of todos |
| Store.SetHelloOnlyMessage | src/front/store.js:23-27 | `set_hello` sets the message to the payload; todos, token, user and storage are unchanged |
| Store.AddTaskRepaints | src/front/store.js:29-34 | `add_task` recolours exactly the entries with the payload id and changes no other part of the store or storage |
| Store.AddTaskAbsentIsNoOp | src/front/store.js:29-34 | `add_task` with an absent id returns the store and storage unchanged |
| Store.LoginInstallsSession | src/front/store.js:36-42 | `login` sets token and user from the payload, stores the token, and keeps message and todos |
| Store.LogoutClearsSession | src/front/store.js:44-50 | `logout` clears token, user and stored token whatever the prior state, and keeps message and todos |
| Store.SetUserOnlyUser | src/front/store.js:52-56 | `set_user` changes only the user; token and stored token are untouched |
| Store.ReduceKeepsStorageInStep | src/front/store.js:36-50 | every successful arm preserves both exact mirroring and agreement of token and storage |
| Store.TypeNameDecidesArm | src/front/store.js:22-56 | each of the five known `type` strings selects exactly its own arm of the reducer |
| Store.Run | src/front/store.js:58-59 | a sequence of dispatches fails exactly when it contains an action whose `type` is none of the known five |
| Store.RunKeepsAgreement | src/front/store.js:36-50 | agreement of token and storage survives any sequence of dispatches |
| Store.SessionAgreesFromLoad | src/front/store.js:1-61 | from application load on, token and storage agree after every dispatch |
| Store.UserNeedsTokenKept | src/front/store.js:21-56 | every action except `set_user` keeps "no user without a token" |
| Store.SetUserWithoutToken | src/front/store.js:52-56 | `set_user` on a store without a token yields a user without a token |
| Store.GlobalStore.constructor | src/front/store.js:1-19 | the global store starts as the initial store read from storage, with token and storage in agreement |
| Store.GlobalStore.Dispatch | src/front/store.js:21-61 | store and storage become the reducer's result; an unknown action is reported and changes nothing; agreement of token and storage is kept either way |
| Effects.BearerRoundTrip | src/front/pages/Private.jsx:22-24 | the bearer header written for a token is read back as exactly that token, and no other header is |
| PrivatePage.ValidationScript | src/front/pages/Private.jsx:11-38 | without a token: no request, no dispatch, a redirect to /login; with one: exactly one validation request carrying the bearer header, then `set_user` with the reply's user and the spinner dropped last, or `logout` then /login with the spinner left on |
| PrivatePage.GateReachesPhase | src/front/pages/Private.jsx:7-41 | from mount the gate ends Authorized exactly when a token is held and the server accepts it, and Redirecting (spinner still on) otherwise |
| PrivatePage.GateSendsHeldToken | src/front/pages/Private.jsx:20-25 | the gate sends exactly one request, and the server reads its bearer credentials as the held token |
| PrivatePage.RefusedClearsSession | src/front/pages/Private.jsx:27-37 | a refused token leaves the store with no token and no user, storage cleared, and the gate Redirecting |
| PrivatePage.GateKeepsUserNeedsToken | src/front/pages/Private.jsx:14-37 | the validation run never leaves a user without a token in the store |
| PrivatePage.LogoutRedirects | src/front/pages/Private.jsx:43-46 | logout always ends Redirecting and clears token, user and stored token |
| PrivatePage.AcceptedShowsUser | src/front/pages/Private.jsx:31-74 | an accepted token stores the returned user and renders the protected content with that user's email and id |
| PrivatePage.Render | src/front/pages/Private.jsx:48-74 | the spinner is rendered exactly while loading; the protected content shows email and id exactly when the store holds a user |
| PrivatePage.Gate.constructor | src/front/pages/Private.jsx:5-8 | the gate mounts with the spinner on and no redirect |
| PrivatePage.Gate.ValidateToken | src/front/pages/Private.jsx:10-41 | the trace grows by the validation script, the component state is what the script leaves, the global store is the reducer run over the script's dispatches, and token and storage still agree |
| PrivatePage.Gate.HandleLogout | src/front/pages/Private.jsx:43-46 | dispatches `logout` then navigates to /login; token, user and storage are cleared |
| LoginPage.FailureMessage | src/front/pages/Login.jsx:29-30 | the failure message is the body's non-empty `error`, and otherwise "Login failed" |
| LoginPage.SubmitScript | src/front/pages/Login.jsx:13-47 | a submission first clears the error and sets loading, and its last step sets loading to false |
| LoginPage.HeadOutcome | src/front/pages/Login.jsx:14-25 | the opening steps clear the error, set loading and send exactly one login request with the typed credentials, dispatching nothing |
| LoginPage.TailOutcome | src/front/pages/Login.jsx:27-46 | after the reply, loading is false; an ok reply dispatches `login` with its token and user and navigates to /private; any other outcome sets the error and dispatches nothing |
| LoginPage.SubmitOutcome | src/front/pages/Login.jsx:13-47 | a whole submission sends one POST of the credentials, dispatches `login` exactly when the reply is ok, and ends with loading false, the error cleared or set to the failure message, and /private as route exactly on success |
| LoginPage.RejectedShowsMessage | src/front/pages/Login.jsx:27-46 | a non-ok reply dispatches nothing and leaves the server's error, or "Login failed", on screen |
| LoginPage.SubmitKeepsUserNeedsToken | src/front/pages/Login.jsx:29-39 | a submission never leaves a user without a token in the store |
| LoginPage.Render | src/front/pages/Login.jsx:56-94 | the submit button is disabled exactly while loading and reads "Logging in..." then; the alert shows exactly a non-empty error |
| LoginPage.Form.constructor | src/front/pages/Login.jsx:5-11 | the form starts with empty inputs, no error and loading off |
| LoginPage.Form.ChangeEmail | src/front/pages/Login.jsx:71 | typing sets the email and nothing else |
| LoginPage.Form.ChangePassword | src/front/pages/Login.jsx:84 | typing sets the password and nothing else |
| LoginPage.Form.HandleSubmit | src/front/pages/Login.jsx:13-47 | the trace grows by the submit script, the component state is what the script leaves (loading always false), the global store is the reducer run over the script's dispatches, and token and storage still agree |
| Routes.Credentials | src/api/routes.py:31-43 | the shared guards pass exactly for a non-empty body with a non-empty email and password, returning them; otherwise the answer is a 400 error |
| Routes.CredentialsOrder | src/api/routes.py:33-43 | a missing body is reported first, a missing email before the password is looked at, then a missing password |
| Routes.FirstWithEmail | src/api/routes.py:46 | finds the first row with the email, or reports that no row has it |
| Routes.RowWithId | src/api/routes.py:128 | finds a row with the id, or reports that no row has it |
| Routes.FirstWithEmailAppend | src/api/routes.py:51-58 | after appending a row with a new email, that row is the one found for the email |
| Routes.SignupGuard | src/api/routes.py:31-48 | signup proceeds exactly when the credentials pass and no row holds the email; a taken email gives 400 "User already exists with this email" |
| Routes.UserTable.Signup | src/api/routes.py:26-68 | a rejected signup leaves the table unchanged; an accepted one appends exactly one active row with the email and the hashed password, keeps ids and emails unique, and answers 201 with the new user |
| Routes.Login | src/api/routes.py:71-116 | the answer is 200, 400 or 401; 400 exactly when the credential guards fail, with that guard's message (body, then email, then password); 200 only for a row with the email whose password checks and that is active, with a token for its id; the inactive-account 401 only for a row whose password checked |
| Routes.LoginInactiveAccount | src/api/routes.py:90-102 | with unique emails, a known user whose password checks but whose account is inactive gets 401 "User account is inactive" |
| Routes.LoginHidesWhichCheckFailed | src/api/routes.py:93-98 | an unknown email and a wrong password give the identical 401 "Invalid email or password" |
| Routes.LoginSucceedsIff | src/api/routes.py:90-111 | with unique emails, login succeeds exactly for a known, active user whose password checks |
| Routes.SignupThenLogin | src/api/routes.py:50-111 | a user just signed up can log in with the same body and receives a token for the new id |
| Routes.ValidateToken | src/api/routes.py:119-144 | 404 exactly when no row has the id, 401 only for an inactive row, otherwise 200 with that row's user |
| Routes.GetUser | src/api/routes.py:147-163 | 404 exactly when no row has the id, otherwise 200 with that row's user |
| Routes.GetUserIgnoresActivity | src/api/routes.py:128-158 | `get_user` answers 404 exactly when `validate_token` does, serves the inactive users `validate_token` refuses, and otherwise returns the same user |

## Left out

- Network I/O: `fetch`, the HTTP transport, JSON parsing and the backend base URL. Each request's outcome is an input (`PrivatePage.Reply`, `LoginPage.Reply`).
- JWT issuance and verification (`generate_token`, `jwt_required`, `get_jwt_identity`): foreign library code; the token is an opaque function `issue` of the user id, and the identity a request carries is a parameter.
- Password hashing (`set_password`, `check_password`): foreign code, modelled as the function parameters of `Passwords`.
- The database session, query machinery, commit, the Flask blueprint, CORS and the `/hello` endpoint: plumbing; the table is a sequence of rows.
- The generic exception-to-500 branches of the endpoints: they depend on unknown library failures. This includes a JSON body that is not an object and members that are not strings; bodies are maps of strings.
- JSX markup, styling, React's scheduling and batching of state updates, and router internals: navigation is a recorded route.
- Async timing and a page unmounted while its request is in flight: concurrency and lifecycle, not stateable logic here; each handler runs to completion.
- Reducer payloads of other shapes than the ones the pages send (for example a `login` payload without a token, which the code would store as the string "undefined").
- Purity of the reducer (equal inputs give equal outputs) holds by construction of `Store.Reduce` as a function and is not stated separately.
