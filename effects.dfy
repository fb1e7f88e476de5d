/** What the pages do besides computing: the requests they send, the
    actions they dispatch, and the component state they set. A page handler
    is described by the ordered list of its effects. */
module Effects {
  import opened Wrappers
  import opened Store

  const LoginRoute := "/login"
  const PrivateRoute := "/private"

  /** The two requests the client sends to the server. */
  datatype Request =
    | ValidateRequest(authorization: string)          // GET /api/token/validate
    | LoginRequest(email: string, password: string)   // POST /api/login, JSON body

  /** The `Authorization` header value for a bearer token (section 2.1 of RFC 6750):
      the scheme name, one space, the token. */
  function BearerHeader(token: string): string
  {
    "Bearer " + token
  }

  /** How a resource server reads an `Authorization` header written with the
      bearer scheme: the credentials after "Bearer ", if the header has that form. */
  function BearerCredentials(header: string): (r: Option<string>)
    ensures r.Some? ==> |r.value| + 7 == |header|
  {
    if |header| >= 7 && header[..7] == "Bearer " then Some(header[7..]) else None
  }

  /** The header the client writes is read back as the very token it holds,
      and the only header read as a token is the one written for it. */
  lemma BearerRoundTrip(token: string, header: string)
    ensures BearerCredentials(BearerHeader(token)) == Some(token)
    ensures BearerCredentials(header) == Some(token) ==> header == BearerHeader(token)
  {
  }

  /** One step of a page handler. */
  datatype Effect =
    | Fetch(request: Request)
    | Dispatching(action: Action)
    | SetLoading(on: bool)
    | SetError(error: Option<string>)
    | Navigate(route: string)

  /** The component state a page keeps: the `loading` flag, the error message,
      and the route it asked the router to go to (if any). */
  datatype Ui = Ui(loading: bool, error: Option<string>, route: Option<string>)

  /** The component state after one effect. */
  function Step(ui: Ui, e: Effect): Ui
  {
    match e
    case SetLoading(on) => ui.(loading := on)
    case SetError(message) => ui.(error := message)
    case Navigate(to) => ui.(route := Some(to))
    case Fetch(_) => ui
    case Dispatching(_) => ui
  }

  /** The component state after a whole script: the last `SetLoading`,
      `SetError` and `Navigate` of the script win. */
  function Settle(ui: Ui, effects: seq<Effect>): Ui
    decreases |effects|
  {
    if effects == [] then ui
    else Step(Settle(ui, effects[..|effects| - 1]), effects[|effects| - 1])
  }

  /** The actions one effect dispatches. */
  function DispatchOf(e: Effect): seq<Action>
  {
    if e.Dispatching? then [e.action] else []
  }

  /** The requests one effect sends. */
  function FetchOf(e: Effect): seq<Request>
  {
    if e.Fetch? then [e.request] else []
  }

  /** The actions a script dispatches, in order. */
  function Dispatched(effects: seq<Effect>): seq<Action>
    decreases |effects|
  {
    if effects == [] then []
    else Dispatched(effects[..|effects| - 1]) + DispatchOf(effects[|effects| - 1])
  }

  /** The requests a script sends, in order. */
  function Fetched(effects: seq<Effect>): seq<Request>
    decreases |effects|
  {
    if effects == [] then []
    else Fetched(effects[..|effects| - 1]) + FetchOf(effects[|effects| - 1])
  }

  /** A script of one step. */
  lemma Single(ui: Ui, e: Effect)
    ensures Settle(ui, [e]) == Step(ui, e)
    ensures Dispatched([e]) == DispatchOf(e)
    ensures Fetched([e]) == FetchOf(e)
  {
  }

  /** Running two scripts one after the other is running their concatenation. */
  lemma {:induction false} SettleAppend(ui: Ui, x: seq<Effect>, y: seq<Effect>)
    ensures Settle(ui, x + y) == Settle(Settle(ui, x), y)
    decreases |y|
  {
    if y != [] {
      var y' := y[..|y| - 1];
      assert (x + y)[..|x + y| - 1] == x + y';
      assert (x + y)[|x + y| - 1] == y[|y| - 1];
      SettleAppend(ui, x, y');
    } else {
      assert x + y == x;
    }
  }

  /** The actions of a concatenation are those of its parts, in order. */
  lemma {:induction false} DispatchedAppend(x: seq<Effect>, y: seq<Effect>)
    ensures Dispatched(x + y) == Dispatched(x) + Dispatched(y)
    decreases |y|
  {
    if y != [] {
      var y' := y[..|y| - 1];
      assert (x + y)[..|x + y| - 1] == x + y';
      assert (x + y)[|x + y| - 1] == y[|y| - 1];
      DispatchedAppend(x, y');
    } else {
      assert x + y == x;
    }
  }

  /** The requests of a concatenation are those of its parts, in order. */
  lemma {:induction false} FetchedAppend(x: seq<Effect>, y: seq<Effect>)
    ensures Fetched(x + y) == Fetched(x) + Fetched(y)
    decreases |y|
  {
    if y != [] {
      var y' := y[..|y| - 1];
      assert (x + y)[..|x + y| - 1] == x + y';
      assert (x + y)[|x + y| - 1] == y[|y| - 1];
      FetchedAppend(x, y');
    } else {
      assert x + y == x;
    }
  }

  /** Settle, Dispatched and Fetched of a three-step script, step by step. */
  lemma ThreeSteps(ui: Ui, a: Effect, b: Effect, c: Effect)
    ensures Settle(ui, [a, b, c]) == Step(Step(Step(ui, a), b), c)
    ensures Dispatched([a, b, c]) == DispatchOf(a) + DispatchOf(b) + DispatchOf(c)
    ensures Fetched([a, b, c]) == FetchOf(a) + FetchOf(b) + FetchOf(c)
  {
    assert [a, b, c] == [a] + [b] + [c];
    Single(ui, a);
    Single(Step(ui, a), b);
    Single(Step(Step(ui, a), b), c);
    SettleAppend(ui, [a] + [b], [c]);
    SettleAppend(ui, [a], [b]);
    DispatchedAppend([a] + [b], [c]);
    DispatchedAppend([a], [b]);
    FetchedAppend([a] + [b], [c]);
    FetchedAppend([a], [b]);
  }

  /** Settle and Dispatched of a two-step script, step by step. */
  lemma TwoSteps(ui: Ui, a: Effect, b: Effect)
    ensures Settle(ui, [a, b]) == Step(Step(ui, a), b)
    ensures Dispatched([a, b]) == DispatchOf(a) + DispatchOf(b)
    ensures Fetched([a, b]) == FetchOf(a) + FetchOf(b)
  {
    assert [a, b] == [a] + [b];
    Single(ui, a);
    Single(Step(ui, a), b);
    SettleAppend(ui, [a], [b]);
    DispatchedAppend([a], [b]);
    FetchedAppend([a], [b]);
  }
}
