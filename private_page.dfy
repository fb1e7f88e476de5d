/** The private page: an auth gate that validates the held token once on
    mount, and the logout button (src/front/pages/Private.jsx). */
module PrivatePage {
  import opened Wrappers
  import opened Store
  import opened Effects

  /** How the validation request ended, as the page observes it: a 2xx
      response whose body carried `user`, or anything else (a non-2xx status,
      a network error, a body that is not JSON). */
  datatype Reply = Accepted(user: Option<User>) | Refused

  /** The states of the gate. */
  datatype Phase = Initializing | Authorized | Redirecting

  /** The component state when the page mounts: spinner on, no redirect. */
  const Mounted := Ui(true, None, None)

  /** Where the gate stands, read off its component state. */
  function PhaseOf(ui: Ui): Phase
  {
    if ui.route == Some(LoginRoute) then Redirecting
    else if ui.loading then Initializing
    else Authorized
  }

  /** The steps of the validation run on mount, given the token the store
      holds and how the request ends. */
  function ValidationScript(token: Option<string>, reply: Reply): (effects: seq<Effect>)
    ensures effects != []
    ensures OrNull(token).None? ==>
      Fetched(effects) == [] && Dispatched(effects) == [] && effects[|effects| - 1] == Navigate(LoginRoute)
    ensures OrNull(token).Some? ==>
      Fetched(effects) == [ValidateRequest(BearerHeader(token.value))] && effects[0].Fetch?
    ensures OrNull(token).Some? && reply.Accepted? ==>
      Dispatched(effects) == [SetUser(reply.user)] && effects[|effects| - 1] == SetLoading(false)
    ensures OrNull(token).Some? && reply.Refused? ==>
      Dispatched(effects) == [Logout] && effects[|effects| - 1] == Navigate(LoginRoute) &&
      forall e :: e in effects ==> !e.SetLoading?
  {
    if OrNull(token).None? then
      Single(Mounted, Navigate(LoginRoute));
      [Navigate(LoginRoute)]
    else
      var fetch := Fetch(ValidateRequest(BearerHeader(token.value)));
      match reply
      case Accepted(user) =>
        ThreeSteps(Mounted, fetch, Dispatching(SetUser(user)), SetLoading(false));
        [fetch, Dispatching(SetUser(user)), SetLoading(false)]
      case Refused =>
        ThreeSteps(Mounted, fetch, Dispatching(Logout), Navigate(LoginRoute));
        [fetch, Dispatching(Logout), Navigate(LoginRoute)]
  }

  /** The gate reaches Authorized exactly when a token is held and the server
      accepts it; every other run ends in Redirecting, with the spinner still on. */
  lemma GateReachesPhase(token: Option<string>, reply: Reply)
    ensures var ui := Settle(Mounted, ValidationScript(token, reply));
      (PhaseOf(ui) == Authorized <==> OrNull(token).Some? && reply.Accepted?) &&
      (PhaseOf(ui) == Redirecting <==> !(OrNull(token).Some? && reply.Accepted?)) &&
      (PhaseOf(ui) == Redirecting ==> ui.loading)
  {
    var script := ValidationScript(token, reply);
    if OrNull(token).None? {
      Single(Mounted, script[0]);
    } else {
      ThreeSteps(Mounted, script[0], script[1], script[2]);
    }
  }

  /** The bearer header the gate sends is read by the server as the held token. */
  lemma GateSendsHeldToken(token: Option<string>, reply: Reply)
    requires OrNull(token).Some?
    ensures var reqs := Fetched(ValidationScript(token, reply));
      |reqs| == 1 && BearerCredentials(reqs[0].authorization) == Some(token.value)
  {
  }

  /** The steps of the logout button. */
  const LogoutScript := [Dispatching(Logout), Navigate(LoginRoute)]

  /** Logging out always clears the session and leads to Redirecting. */
  lemma LogoutRedirects(ui: Ui, s: State, stored: Option<string>)
    ensures PhaseOf(Settle(ui, LogoutScript)) == Redirecting
    ensures Run(s, stored, Dispatched(LogoutScript)) == Success(Next(s.(token := None, user := None), None))
  {
    TwoSteps(ui, Dispatching(Logout), Navigate(LoginRoute));
    assert [Logout][..0] == [];
  }

  /** The user's email and id, as the page shows them. */
  datatype Badge = Badge(email: string, id: int)

  /** What the page renders: the spinner, or the protected content with the
      user's badge when the store holds a user. */
  datatype View = Spinner | Protected(badge: Option<Badge>)

  function Render(loading: bool, user: Option<User>): (v: View)
    ensures v.Spinner? <==> loading
    ensures v.Protected? ==> (v.badge.Some? <==> user.Some?)
    ensures v.Protected? && user.Some? ==> v.badge.value.email == user.value.email && v.badge.value.id == user.value.id
  {
    if loading then Spinner
    else Protected(if user.Some? then Some(Badge(user.value.email, user.value.id)) else None)
  }

  /** Mounting with a token that the server accepts stores the returned user
      and renders the protected content with that user's email and id. */
  lemma AcceptedShowsUser(s: State, stored: Option<string>, u: User)
    requires OrNull(s.token).Some?
    ensures var script := ValidationScript(s.token, Accepted(Some(u)));
      var r := Run(s, stored, Dispatched(script));
      r.Success? && r.value.state.user == Some(u) && r.value.state.token == s.token &&
      Render(Settle(Mounted, script).loading, r.value.state.user) == Protected(Some(Badge(u.email, u.id)))
  {
  }

  /** A server that refuses the held token leaves the session cleared: no
      token, no user, nothing stored, and the gate Redirecting. */
  lemma RefusedClearsSession(s: State, stored: Option<string>)
    requires OrNull(s.token).Some?
    ensures var script := ValidationScript(s.token, Refused);
      Run(s, stored, Dispatched(script)) == Success(Next(s.(token := None, user := None), None)) &&
      PhaseOf(Settle(Mounted, script)) == Redirecting
  {
    GateReachesPhase(s.token, Refused);
    RunSingle(s, stored, Logout);
  }

  /** The validation run keeps "no user without a token": it dispatches
      `set_user` only while the store holds a token, and otherwise clears both. */
  lemma GateKeepsUserNeedsToken(s: State, stored: Option<string>, reply: Reply)
    requires UserNeedsToken(s)
    ensures var r := Run(s, stored, Dispatched(ValidationScript(s.token, reply)));
      r.Success? && UserNeedsToken(r.value.state)
  {
    var acts := Dispatched(ValidationScript(s.token, reply));
    if acts != [] {
      RunSingle(s, stored, acts[0]);
    }
  }

  /** The gate component: its component state, the global store it
      dispatches to, and the effects it has performed so far. */
  class Gate {
    const store: GlobalStore
    var loading: bool
    var route: Option<string>
    ghost var trace: seq<Effect>

    /** Mounting the page: the spinner is on. */
    constructor (store: GlobalStore)
      ensures this.store == store && Local() == Mounted && trace == []
    {
      this.store := store;
      loading := true;
      route := None;
      trace := [];
    }

    /** The component state; the gate shows no error message. */
    function Local(): Ui
      reads this
    {
      Ui(loading, None, route)
    }

    /** The validation run on mount: with no token, redirect without a request;
        otherwise send the bearer request and, on acceptance, store the user
        and drop the spinner, or else log out and redirect. */
    method ValidateToken(reply: Reply)
      requires store.Valid()
      modifies this, store
      ensures store.Valid()
      ensures trace == old(trace) + ValidationScript(old(store.state.token), reply)
      ensures Local() == Settle(old(Local()), ValidationScript(old(store.state.token), reply))
      ensures Run(old(store.state), old(store.storage), Dispatched(ValidationScript(old(store.state.token), reply)))
        == Success(Next(store.state, store.storage))
    {
      ghost var script := ValidationScript(store.state.token, reply);
      ghost var ui0 := Local();
      var token := store.state.token;
      if OrNull(token).None? {
        route := Some(LoginRoute);
        trace := trace + [Navigate(LoginRoute)];
        Single(ui0, script[0]);
        return;
      }
      trace := trace + [Fetch(ValidateRequest(BearerHeader(token.value)))];
      match reply {
        case Accepted(user) =>
          var fault := store.Dispatch(SetUser(user));
          trace := trace + [Dispatching(SetUser(user))];
          loading := false;
          trace := trace + [SetLoading(false)];
        case Refused =>
          var fault := store.Dispatch(Logout);
          trace := trace + [Dispatching(Logout)];
          route := Some(LoginRoute);
          trace := trace + [Navigate(LoginRoute)];
      }
      ThreeSteps(ui0, script[0], script[1], script[2]);
      assert [script[1].action][..0] == [];
    }

    /** The logout button: clear the session, then redirect to the login page. */
    method HandleLogout()
      requires store.Valid()
      modifies this, store
      ensures store.Valid()
      ensures trace == old(trace) + LogoutScript
      ensures Local() == Settle(old(Local()), LogoutScript)
      ensures Run(old(store.state), old(store.storage), Dispatched(LogoutScript)) == Success(Next(store.state, store.storage))
      ensures store.state.token == None && store.state.user == None && store.storage == None
      ensures PhaseOf(Local()) == Redirecting
    {
      ghost var ui0 := Local();
      var fault := store.Dispatch(Logout);
      trace := trace + [Dispatching(Logout)];
      route := Some(LoginRoute);
      trace := trace + [Navigate(LoginRoute)];
      TwoSteps(ui0, Dispatching(Logout), Navigate(LoginRoute));
      LogoutRedirects(ui0, old(store.state), old(store.storage));
    }
  }
}
