/** The client session store: its initial value, its reducer, and the holder
    that the pages dispatch through (src/front/store.js). */
module Store {
  import opened Wrappers

  /** A to-do entry; `background` stays null until a colour is assigned. */
  datatype Todo = Todo(id: int, title: string, background: Option<string>)

  /** The user record the server serialises (its id and email). */
  datatype User = User(id: int, email: string)

  /** The whole session store. */
  datatype State = State(message: Option<string>, todos: seq<Todo>, token: Option<string>, user: Option<User>)

  /** The `type` strings the reducer has a case for. */
  const KnownTypes: set<string> := {"set_hello", "add_task", "login", "logout", "set_user"}

  /** A `type` string the reducer has no case for. */
  type UnknownKind = k: string | k !in {"set_hello", "add_task", "login", "logout", "set_user"} witness ""

  /** A dispatched action. `Unrecognised` stands for every action whose `type`
      is none of the five names the reducer knows. */
  datatype Action =
    | SetHello(text: Option<string>)
    | AddTask(taskId: int, color: string)
    | Login(newToken: string, newUser: Option<User>)
    | Logout
    | SetUser(profile: Option<User>)
    | Unrecognised(kind: UnknownKind)

  /** The error the reducer throws for an unknown action. */
  datatype Fault = UnknownAction(kind: string)

  /** What one dispatch yields: the next store and the `token` entry of session storage. */
  datatype Next = Next(state: State, stored: Option<string>)

  /** The action's `type` string. */
  function TypeName(a: Action): (t: string)
    ensures t in KnownTypes <==> !a.Unrecognised?
  {
    match a
    case SetHello(_) => "set_hello"
    case AddTask(_, _) => "add_task"
    case Login(_, _) => "login"
    case Logout => "logout"
    case SetUser(_) => "set_user"
    case Unrecognised(kind) => kind
  }

  /** A stored string as JavaScript's `value || null` reads it: the empty string counts as absent. */
  function OrNull(t: Option<string>): (r: Option<string>)
    ensures r.Some? <==> t.Some? && t.value != ""
    ensures r.Some? ==> r == t
  {
    if t.Some? && t.value != "" then t else None
  }

  /** The store built when the application loads, from the `token` entry of session storage. */
  function InitialStore(stored: Option<string>): (s: State)
    ensures s.message == None && s.user == None
    ensures s.token == OrNull(stored)
    ensures |s.todos| == 2 && s.todos[0].id == 1 && s.todos[1].id == 2
    ensures forall i :: 0 <= i < |s.todos| ==> s.todos[i].background == None
  {
    State(None, [Todo(1, "Make the bed", None), Todo(2, "Do my homework", None)], OrNull(stored), None)
  }

  /** The to-do list after `add_task`: every entry with the given id gets the colour. */
  function Paint(todos: seq<Todo>, id: int, color: string): (r: seq<Todo>)
    ensures |r| == |todos|
    ensures forall i :: 0 <= i < |r| ==>
      r[i].id == todos[i].id && r[i].title == todos[i].title &&
      r[i].background == (if todos[i].id == id then Some(color) else todos[i].background)
  {
    if todos == [] then []
    else
      var head := if todos[0].id == id then todos[0].(background := Some(color)) else todos[0];
      [head] + Paint(todos[1..], id, color)
  }

  /** Entries whose id differs from the payload's are left exactly as they were. */
  lemma PaintKeepsOthers(todos: seq<Todo>, id: int, color: string, i: int)
    requires 0 <= i < |todos| && todos[i].id != id
    ensures Paint(todos, id, color)[i] == todos[i]
  {
  }

  /** `add_task` with an id no entry carries leaves the list as it was. */
  lemma PaintAbsentId(todos: seq<Todo>, id: int, color: string)
    requires forall i :: 0 <= i < |todos| ==> todos[i].id != id
    ensures Paint(todos, id, color) == todos
  {
  }

  /** The reducer: the next store and storage entry, or the error for an unknown action. */
  function Reduce(s: State, stored: Option<string>, a: Action): (r: Result<Next, Fault>)
    ensures r.Failure? <==> TypeName(a) !in KnownTypes
    ensures r.Failure? ==> r.error == UnknownAction(TypeName(a))
    ensures r.Success? && !a.Login? && !a.Logout? ==> r.value.stored == stored && r.value.state.token == s.token
    ensures r.Success? ==> |r.value.state.todos| == |s.todos|
  {
    match a
    case SetHello(text) => Success(Next(s.(message := text), stored))
    case AddTask(id, color) => Success(Next(s.(todos := Paint(s.todos, id, color)), stored))
    case Login(t, u) => Success(Next(s.(token := Some(t), user := u), Some(t)))
    case Logout => Success(Next(s.(token := None, user := None), None))
    case SetUser(u) => Success(Next(s.(user := u), stored))
    case Unrecognised(kind) => Failure(UnknownAction(kind))
  }

  /** An action's `type` string alone decides which arm of the reducer runs. */
  lemma TypeNameDecidesArm(a: Action)
    ensures TypeName(a) == "set_hello" <==> a.SetHello?
    ensures TypeName(a) == "add_task" <==> a.AddTask?
    ensures TypeName(a) == "login" <==> a.Login?
    ensures TypeName(a) == "logout" <==> a.Logout?
    ensures TypeName(a) == "set_user" <==> a.SetUser?
  {
  }

  /** `set_hello` changes the message and nothing else. */
  lemma SetHelloOnlyMessage(s: State, stored: Option<string>, text: Option<string>)
    ensures var r := Reduce(s, stored, SetHello(text));
      r.Success? && r.value.state.message == text &&
      r.value.state.todos == s.todos && r.value.state.token == s.token &&
      r.value.state.user == s.user && r.value.stored == stored
  {
  }

  /** `add_task` repaints matching entries and leaves everything else of the store alone. */
  lemma AddTaskRepaints(s: State, stored: Option<string>, id: int, color: string)
    ensures var r := Reduce(s, stored, AddTask(id, color));
      r.Success? && r.value.state.message == s.message && r.value.state.token == s.token &&
      r.value.state.user == s.user && r.value.stored == stored &&
      |r.value.state.todos| == |s.todos| &&
      (forall i :: 0 <= i < |s.todos| && s.todos[i].id == id ==>
        r.value.state.todos[i] == s.todos[i].(background := Some(color))) &&
      (forall i :: 0 <= i < |s.todos| && s.todos[i].id != id ==> r.value.state.todos[i] == s.todos[i])
  {
  }

  /** `add_task` for an id that no entry carries changes nothing at all. */
  lemma AddTaskAbsentIsNoOp(s: State, stored: Option<string>, id: int, color: string)
    requires forall i :: 0 <= i < |s.todos| ==> s.todos[i].id != id
    ensures Reduce(s, stored, AddTask(id, color)) == Success(Next(s, stored))
  {
    PaintAbsentId(s.todos, id, color);
  }

  /** `login` installs the token and user and writes the token to storage. */
  lemma LoginInstallsSession(s: State, stored: Option<string>, t: string, u: Option<User>)
    ensures var r := Reduce(s, stored, Login(t, u));
      r.Success? && r.value.state.token == Some(t) && r.value.state.user == u &&
      r.value.stored == Some(t) &&
      r.value.state.message == s.message && r.value.state.todos == s.todos
  {
  }

  /** `logout` clears token, user and storage, whatever the prior state. */
  lemma LogoutClearsSession(s: State, stored: Option<string>)
    ensures var r := Reduce(s, stored, Logout);
      r.Success? && r.value.state.token == None && r.value.state.user == None &&
      r.value.stored == None &&
      r.value.state.message == s.message && r.value.state.todos == s.todos
  {
  }

  /** `set_user` changes only the user; token and storage are untouched. */
  lemma SetUserOnlyUser(s: State, stored: Option<string>, u: Option<User>)
    ensures var r := Reduce(s, stored, SetUser(u));
      r.Success? && r.value.state == s.(user := u) && r.value.stored == stored
  {
  }

  /** Storage holds exactly the token field. */
  predicate Mirrored(s: State, stored: Option<string>)
  {
    s.token == stored
  }

  /** Storage and token field agree as the application reads them: an empty
      string counts as no token on both sides. */
  predicate Agrees(s: State, stored: Option<string>)
  {
    OrNull(s.token) == OrNull(stored)
  }

  /** The freshly loaded store agrees with storage, and mirrors it exactly
      unless storage held the empty string. */
  lemma InitialStoreAgrees(stored: Option<string>)
    ensures Agrees(InitialStore(stored), stored)
    ensures Mirrored(InitialStore(stored), stored) <==> stored != Some("")
  {
  }

  /** Every arm of the reducer keeps storage in step with the token field. */
  lemma ReduceKeepsStorageInStep(s: State, stored: Option<string>, a: Action)
    requires Reduce(s, stored, a).Success?
    ensures Mirrored(s, stored) ==> Mirrored(Reduce(s, stored, a).value.state, Reduce(s, stored, a).value.stored)
    ensures Agrees(s, stored) ==> Agrees(Reduce(s, stored, a).value.state, Reduce(s, stored, a).value.stored)
  {
  }

  /** The store after dispatching `acts` in order; the first unknown action aborts. */
  function Run(s: State, stored: Option<string>, acts: seq<Action>): (r: Result<Next, Fault>)
    ensures r.Failure? <==> exists i :: 0 <= i < |acts| && TypeName(acts[i]) !in KnownTypes
    decreases |acts|
  {
    if acts == [] then Success(Next(s, stored))
    else
      match Run(s, stored, acts[..|acts| - 1])
      case Failure(f) => Failure(f)
      case Success(n) => Reduce(n.state, n.stored, acts[|acts| - 1])
  }

  /** Dispatching one action is one reducer call. */
  lemma RunSingle(s: State, stored: Option<string>, a: Action)
    ensures Run(s, stored, [a]) == Reduce(s, stored, a)
  {
  }

  /** Agreement between storage and token survives any history of dispatches. */
  lemma {:induction false} RunKeepsAgreement(s: State, stored: Option<string>, acts: seq<Action>)
    requires Agrees(s, stored)
    ensures Run(s, stored, acts).Success? ==>
      Agrees(Run(s, stored, acts).value.state, Run(s, stored, acts).value.stored)
    decreases |acts|
  {
    if acts != [] {
      var prefix := acts[..|acts| - 1];
      RunKeepsAgreement(s, stored, prefix);
      var p := Run(s, stored, prefix);
      if p.Success? && Reduce(p.value.state, p.value.stored, acts[|acts| - 1]).Success? {
        ReduceKeepsStorageInStep(p.value.state, p.value.stored, acts[|acts| - 1]);
      }
    }
  }

  /** From application load on, storage and the token field agree after every dispatch. */
  lemma SessionAgreesFromLoad(stored: Option<string>, acts: seq<Action>)
    ensures Run(InitialStore(stored), stored, acts).Success? ==>
      Agrees(Run(InitialStore(stored), stored, acts).value.state, Run(InitialStore(stored), stored, acts).value.stored)
  {
  }

  /** No authenticated identity without a token. */
  predicate UserNeedsToken(s: State)
  {
    s.user.Some? ==> s.token.Some?
  }

  /** Every action but `set_user` keeps "no user without a token". */
  lemma UserNeedsTokenKept(s: State, stored: Option<string>, a: Action)
    requires UserNeedsToken(s) && !a.SetUser? && Reduce(s, stored, a).Success?
    ensures UserNeedsToken(Reduce(s, stored, a).value.state)
  {
  }

  /** `set_user` on a store with no token yields a user without a token: the
      reducer alone does not keep "no user without a token". */
  lemma SetUserWithoutToken(u: User)
    ensures var r := Reduce(InitialStore(None), None, SetUser(Some(u)));
      r.Success? && !UserNeedsToken(r.value.state)
  {
  }

  /** The global store as the pages see it: the current store and the
      `token` entry of session storage, advanced by `Dispatch`. */
  class GlobalStore {
    var state: State
    var storage: Option<string>

    /** Storage and the token field agree, as the application reads them. */
    ghost predicate Valid()
      reads this
    {
      Agrees(state, storage)
    }

    /** Loads the store from session storage. */
    constructor (stored: Option<string>)
      ensures state == InitialStore(stored) && storage == stored
      ensures Valid()
    {
      state := InitialStore(stored);
      storage := stored;
    }

    /** Runs the reducer on the current store; an unknown action is reported
        and leaves store and storage as they were. */
    method Dispatch(a: Action) returns (fault: Option<Fault>)
      requires Valid()
      modifies this
      ensures Valid()
      ensures Reduce(old(state), old(storage), a).Success? ==>
        fault == None && Success(Next(state, storage)) == Reduce(old(state), old(storage), a)
      ensures Reduce(old(state), old(storage), a).Failure? ==>
        fault == Some(Reduce(old(state), old(storage), a).error) && state == old(state) && storage == old(storage)
    {
      var r := Reduce(state, storage, a);
      match r {
        case Success(next) =>
          ReduceKeepsStorageInStep(state, storage, a);
          state, storage := next.state, next.stored;
          fault := None;
        case Failure(f) =>
          fault := Some(f);
      }
    }
  }
}
