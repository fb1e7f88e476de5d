/** The login form: its submit handler and what it renders
    (src/front/pages/Login.jsx). */
module LoginPage {
  import opened Wrappers
  import opened Store
  import opened Effects

  /** How the login request ended, as the form observes it: a response with a
      JSON body (its `ok` flag, and the body's `error`, `access_token` and
      `user`), or a thrown error (the request failed or the body was not JSON)
      with its message. */
  datatype Reply =
    | Answered(ok: bool, error: Option<string>, accessToken: string, user: Option<User>)
    | Thrown(message: string)

  /** The submission logs the user in. */
  predicate Succeeds(reply: Reply)
  {
    reply.Answered? && reply.ok
  }

  /** The message shown for a response that is not ok: the body's `error`,
      or "Login failed" when the body has none or an empty one. */
  function FailureMessage(error: Option<string>): (m: string)
    ensures m != ""
    ensures error.Some? && error.value != "" ==> m == error.value
    ensures error.None? || error.value == "" ==> m == "Login failed"
  {
    if error.Some? && error.value != "" then error.value else "Login failed"
  }

  /** The error message a submission ends with, if it fails. */
  function ErrorAfter(reply: Reply): Option<string>
  {
    match reply
    case Answered(ok, error, _, _) => if ok then None else Some(FailureMessage(error))
    case Thrown(message) => Some(message)
  }

  /** The steps that follow the request, by how it ended. */
  function Tail(reply: Reply): seq<Effect>
  {
    match reply
    case Answered(ok, error, token, user) =>
      if ok then [Dispatching(Login(token, user)), Navigate(PrivateRoute), SetLoading(false)]
      else [SetError(Some(FailureMessage(error))), SetLoading(false)]
    case Thrown(message) => [SetError(Some(message)), SetLoading(false)]
  }

  /** The steps of one submission: clear the error, show progress, send the
      credentials, then react to the reply; progress ends in every case. */
  function SubmitScript(email: string, password: string, reply: Reply): (effects: seq<Effect>)
    ensures |effects| >= 5
    ensures effects[0] == SetError(None) && effects[1] == SetLoading(true)
    ensures effects[|effects| - 1] == SetLoading(false)
  {
    Head(email, password) + Tail(reply)
  }

  /** The first three steps: clear the error, show progress, send the credentials. */
  function Head(email: string, password: string): seq<Effect>
  {
    [SetError(None), SetLoading(true), Fetch(LoginRequest(email, password))]
  }

  lemma HeadOutcome(ui: Ui, email: string, password: string)
    ensures Settle(ui, Head(email, password)) == ui.(error := None, loading := true)
    ensures Dispatched(Head(email, password)) == []
    ensures Fetched(Head(email, password)) == [LoginRequest(email, password)]
  {
    var h := Head(email, password);
    ThreeSteps(ui, h[0], h[1], h[2]);
  }

  lemma TailOutcome(ui: Ui, reply: Reply)
    ensures Settle(ui, Tail(reply)) ==
      Ui(false, if Succeeds(reply) then ui.error else ErrorAfter(reply), if Succeeds(reply) then Some(PrivateRoute) else ui.route)
    ensures Dispatched(Tail(reply)) == (if Succeeds(reply) then [Login(reply.accessToken, reply.user)] else [])
    ensures Fetched(Tail(reply)) == []
  {
    var t := Tail(reply);
    if Succeeds(reply) {
      ThreeSteps(ui, t[0], t[1], t[2]);
    } else {
      TwoSteps(ui, t[0], t[1]);
    }
  }

  /** What a submission sends, dispatches and leaves on screen: exactly one
      POST of the typed credentials; a `login` carrying the response's token
      and user, and the move to the private page, exactly when the response is
      ok; otherwise the failure message; and never a pending spinner. */
  lemma SubmitOutcome(ui: Ui, email: string, password: string, reply: Reply)
    ensures var script := SubmitScript(email, password, reply);
      Fetched(script) == [LoginRequest(email, password)] &&
      Dispatched(script) == (if Succeeds(reply) then [Login(reply.accessToken, reply.user)] else []) &&
      Settle(ui, script) == Ui(false, ErrorAfter(reply), if Succeeds(reply) then Some(PrivateRoute) else ui.route)
  {
    var head, tail := Head(email, password), Tail(reply);
    assert SubmitScript(email, password, reply) == head + tail;
    HeadOutcome(ui, email, password);
    TailOutcome(Settle(ui, head), reply);
    SettleAppend(ui, head, tail);
    DispatchedAppend(head, tail);
    FetchedAppend(head, tail);
  }

  /** A non-ok response is shown with the server's message, or "Login failed";
      nothing is dispatched. */
  lemma RejectedShowsMessage(ui: Ui, email: string, password: string, error: Option<string>, token: string, user: Option<User>)
    ensures var script := SubmitScript(email, password, Answered(false, error, token, user));
      Dispatched(script) == [] &&
      Settle(ui, script).error == Some(if error.Some? && error.value != "" then error.value else "Login failed")
  {
    SubmitOutcome(ui, email, password, Answered(false, error, token, user));
  }

  /** The store after a submission: one `login` on an ok response, and
      otherwise the store as it was. */
  lemma SubmitRun(s: State, stored: Option<string>, email: string, password: string, reply: Reply)
    ensures Run(s, stored, Dispatched(SubmitScript(email, password, reply))) ==
      if Succeeds(reply) then Reduce(s, stored, Login(reply.accessToken, reply.user)) else Success(Next(s, stored))
  {
    SubmitOutcome(Ui(false, None, None), email, password, reply);
    if Succeeds(reply) {
      RunSingle(s, stored, Login(reply.accessToken, reply.user));
    }
  }

  /** A submission keeps "no user without a token": the only action it may
      dispatch is `login`, which installs a token along with the user. */
  lemma SubmitKeepsUserNeedsToken(s: State, stored: Option<string>, email: string, password: string, reply: Reply)
    requires UserNeedsToken(s)
    ensures var r := Run(s, stored, Dispatched(SubmitScript(email, password, reply)));
      r.Success? && UserNeedsToken(r.value.state)
  {
    SubmitOutcome(Ui(false, None, None), email, password, reply);
    if Succeeds(reply) {
      RunSingle(s, stored, Login(reply.accessToken, reply.user));
    }
  }

  /** Recording two stretches of steps one after the other records their concatenation. */
  lemma AppendAssociates(trace: seq<Effect>, x: seq<Effect>, y: seq<Effect>)
    ensures trace + x + y == trace + (x + y)
  {
  }

  /** What the form renders besides its inputs. */
  datatype View = View(alert: Option<string>, buttonDisabled: bool, buttonLabel: string)

  function Render(error: Option<string>, loading: bool): (v: View)
    ensures v.buttonDisabled <==> loading
    ensures v.alert.Some? <==> error.Some? && error.value != ""
    ensures v.alert.Some? ==> v.alert == error
    ensures v.buttonLabel == (if loading then "Logging in..." else "Login")
  {
    View(if error.Some? && error.value != "" then error else None, loading, if loading then "Logging in..." else "Login")
  }

  /** The login form component: the typed credentials, its component state,
      the global store it dispatches to, and the effects performed so far. */
  class Form {
    const store: GlobalStore
    var email: string
    var password: string
    var error: Option<string>
    var loading: bool
    var route: Option<string>
    ghost var trace: seq<Effect>

    constructor (store: GlobalStore)
      ensures this.store == store && email == "" && password == ""
      ensures Local() == Ui(false, None, None) && trace == []
    {
      this.store := store;
      email, password := "", "";
      error, loading, route := None, false, None;
      trace := [];
    }

    /** The component state. */
    function Local(): Ui
      reads this
    {
      Ui(loading, error, route)
    }

    /** Typing in the email input. */
    method ChangeEmail(value: string)
      modifies this
      ensures email == value && password == old(password)
      ensures Local() == old(Local()) && trace == old(trace)
    {
      email := value;
    }

    /** Typing in the password input. */
    method ChangePassword(value: string)
      modifies this
      ensures password == value && email == old(email)
      ensures Local() == old(Local()) && trace == old(trace)
    {
      password := value;
    }

    /** Submitting the form, given how the request ends. */
    method HandleSubmit(reply: Reply)
      requires store.Valid()
      modifies this, store
      ensures store.Valid()
      ensures email == old(email) && password == old(password)
      ensures trace == old(trace) + SubmitScript(old(email), old(password), reply)
      ensures Local() == Settle(old(Local()), SubmitScript(old(email), old(password), reply))
      ensures Run(old(store.state), old(store.storage), Dispatched(SubmitScript(old(email), old(password), reply)))
        == Success(Next(store.state, store.storage))
      ensures !loading
    {
      ghost var ui0, s0, stored0, before := Local(), store.state, store.storage, trace;
      SubmitOutcome(ui0, email, password, reply);
      SubmitRun(s0, stored0, email, password, reply);
      error := None;
      loading := true;
      trace := trace + Head(email, password);
      match reply {
        case Answered(ok, err, token, user) =>
          if ok {
            var fault := store.Dispatch(Login(token, user));
            route := Some(PrivateRoute);
          } else {
            error := Some(FailureMessage(err));
          }
        case Thrown(message) =>
          error := Some(message);
      }
      loading := false;
      trace := trace + Tail(reply);
      AppendAssociates(before, Head(email, password), Tail(reply));
      assert Local() == Ui(false, ErrorAfter(reply), if Succeeds(reply) then Some(PrivateRoute) else ui0.route);
    }
  }
}
