/** The authentication endpoints of the API: `signup`, `login`,
    `validate_token` and `get_user` (src/api/routes.py), over the user table. */
module Routes {
  import opened Wrappers

  /** A request's JSON object, with its string-valued members. */
  type Body = map<string, string>

  /** A row of the user table. */
  datatype Row = Row(id: nat, email: string, passwordHash: string, isActive: bool)

  /** A user as the API serialises it. */
  datatype Profile = Profile(id: nat, email: string)

  /** The JSON object a response carries. */
  datatype Payload =
    | ErrorPayload(error: string)
    | CreatedPayload(message: string, user: Profile)
    | LoginPayload(message: string, accessToken: string, user: Profile)
    | ValidPayload(message: string, user: Profile)
    | ProfilePayload(user: Profile)

  /** An HTTP status code with its JSON body. */
  datatype Response = Response(status: nat, payload: Payload)

  /** Password hashing as the user model provides it: `hash` makes the stored
      hash of a password; `check` tells whether a password matches a stored hash. */
  datatype Passwords = Passwords(hash: string -> string, check: (string, string) -> bool)

  const InvalidCredentials := "Invalid email or password"
  const InactiveAccount := "User account is inactive"
  const NotFound := "User not found"

  function Serialize(row: Row): Profile
  {
    Profile(row.id, row.email)
  }

  /** An error response: a status and an `error` message. */
  function Reject(status: nat, message: string): Response
  {
    Response(status, ErrorPayload(message))
  }

  /** A member of the body, if present. */
  function Get(body: Body, key: string): Option<string>
  {
    if key in body then Some(body[key]) else None
  }

  /** Python truthiness of a member: present and not the empty string. */
  predicate Truthy(v: Option<string>)
  {
    v.Some? && v.value != ""
  }

  /** Python truthiness of the body: present and not the empty object. */
  predicate Given(body: Option<Body>)
  {
    body.Some? && |body.value| > 0
  }

  /** The guards that open both `signup` and `login`: a body, then an email,
      then a password, each checked only once the one before has passed. */
  function Credentials(body: Option<Body>): (r: Result<(string, string), Response>)
    ensures r.Success? <==> Given(body) && Truthy(Get(body.value, "email")) && Truthy(Get(body.value, "password"))
    ensures r.Success? ==> r.value.0 == body.value["email"] != "" && r.value.1 == body.value["password"] != ""
    ensures r.Failure? ==> r.error.status == 400 && r.error.payload.ErrorPayload?
  {
    if !Given(body) then Failure(Reject(400, "Request body is required"))
    else if !Truthy(Get(body.value, "email")) then Failure(Reject(400, "Email is required"))
    else if !Truthy(Get(body.value, "password")) then Failure(Reject(400, "Password is required"))
    else Success((body.value["email"], body.value["password"]))
  }

  /** Which guard rejects a body: the body first, the email before the password. */
  lemma CredentialsOrder(body: Option<Body>)
    ensures !Given(body) ==> Credentials(body) == Failure(Reject(400, "Request body is required"))
    ensures Given(body) && !Truthy(Get(body.value, "email")) ==>
      Credentials(body) == Failure(Reject(400, "Email is required"))
    ensures Given(body) && Truthy(Get(body.value, "email")) && !Truthy(Get(body.value, "password")) ==>
      Credentials(body) == Failure(Reject(400, "Password is required"))
  {
  }

  /** The first row with the given email (`filter_by(email=...).first()`), by position. */
  function FirstWithEmail(rows: seq<Row>, email: string): (r: Option<nat>)
    ensures r.Some? ==> r.value < |rows| && rows[r.value].email == email
    ensures r.Some? ==> forall j :: 0 <= j < r.value ==> rows[j].email != email
    ensures r.None? ==> forall j :: 0 <= j < |rows| ==> rows[j].email != email
  {
    if rows == [] then None
    else if rows[0].email == email then Some(0)
    else match FirstWithEmail(rows[1..], email)
      case None => None
      case Some(k) => Some(k + 1)
  }

  /** The row with the given primary key (`query.get(id)`), by position. */
  function RowWithId(rows: seq<Row>, id: nat): (r: Option<nat>)
    ensures r.Some? ==> r.value < |rows| && rows[r.value].id == id
    ensures r.None? ==> forall j :: 0 <= j < |rows| ==> rows[j].id != id
  {
    if rows == [] then None
    else if rows[0].id == id then Some(0)
    else match RowWithId(rows[1..], id)
      case None => None
      case Some(k) => Some(k + 1)
  }

  /** Appending a row with a new email makes it the one found for that email. */
  lemma {:induction false} FirstWithEmailAppend(rows: seq<Row>, row: Row)
    requires FirstWithEmail(rows, row.email).None?
    ensures FirstWithEmail(rows + [row], row.email) == Some(|rows|)
  {
    if rows != [] {
      assert (rows + [row])[1..] == rows[1..] + [row];
      FirstWithEmailAppend(rows[1..], row);
    }
  }

  predicate UniqueIds(rows: seq<Row>)
  {
    forall i, j :: 0 <= i < j < |rows| ==> rows[i].id != rows[j].id
  }

  predicate UniqueEmails(rows: seq<Row>)
  {
    forall i, j :: 0 <= i < j < |rows| ==> rows[i].email != rows[j].email
  }

  /** The guards of `signup`: the shared credential guards, then no user may
      hold the email already. */
  function SignupGuard(rows: seq<Row>, body: Option<Body>): (r: Result<(string, string), Response>)
    ensures r.Success? <==> Credentials(body).Success? && forall i :: 0 <= i < |rows| ==> rows[i].email != Credentials(body).value.0
    ensures r.Success? ==> r.value == Credentials(body).value
    ensures Credentials(body).Failure? ==> r == Credentials(body)
    ensures Credentials(body).Success? && r.Failure? ==> r.error == Reject(400, "User already exists with this email")
  {
    match Credentials(body)
    case Failure(e) => Failure(e)
    case Success(c) =>
      if FirstWithEmail(rows, c.0).Some? then Failure(Reject(400, "User already exists with this email"))
      else Success(c)
  }

  /** `login`: the credential guards, then the user lookup, the password
      check and the active flag, in that order; success issues a token for the
      user's id. Being a function of the table, it cannot change it. */
  function Login(rows: seq<Row>, body: Option<Body>, pw: Passwords, issue: nat -> string): (r: Response)
    ensures r.status == 200 || r.status == 400 || r.status == 401
    ensures r.status == 400 <==> Credentials(body).Failure?
    ensures Credentials(body).Failure? ==> r == Credentials(body).error
    ensures r.status == 200 ==>
      exists i :: (0 <= i < |rows| &&
        rows[i].email == Credentials(body).value.0 && pw.check(rows[i].passwordHash, Credentials(body).value.1) &&
        rows[i].isActive && r.payload == LoginPayload("Login successful", issue(rows[i].id), Serialize(rows[i])))
    ensures r == Reject(401, InactiveAccount) ==>
      exists i :: (0 <= i < |rows| &&
        rows[i].email == Credentials(body).value.0 && pw.check(rows[i].passwordHash, Credentials(body).value.1) &&
        !rows[i].isActive)
    ensures r.status == 401 ==> r == Reject(401, InvalidCredentials) || r == Reject(401, InactiveAccount)
  {
    match Credentials(body)
    case Failure(e) => e
    case Success(c) =>
      var (email, password) := c;
      match FirstWithEmail(rows, email)
      case None => Reject(401, InvalidCredentials)
      case Some(i) =>
        if !pw.check(rows[i].passwordHash, password) then Reject(401, InvalidCredentials)
        else if !rows[i].isActive then Reject(401, InactiveAccount)
        else Response(200, LoginPayload("Login successful", issue(rows[i].id), Serialize(rows[i])))
  }

  /** An unknown email and a wrong password are answered identically, so the
      response does not tell which of the two failed. */
  lemma LoginHidesWhichCheckFailed(rows: seq<Row>, body: Option<Body>, pw: Passwords, issue: nat -> string)
    requires Credentials(body).Success?
    requires var (email, password) := Credentials(body).value;
      (forall i :: 0 <= i < |rows| ==> rows[i].email != email) ||
      (UniqueEmails(rows) && exists i :: 0 <= i < |rows| && rows[i].email == email && !pw.check(rows[i].passwordHash, password))
    ensures Login(rows, body, pw, issue) == Reject(401, InvalidCredentials)
  {
  }

  /** With emails unique, a known user whose password checks but whose account
      is inactive is told so. */
  lemma LoginInactiveAccount(rows: seq<Row>, body: Option<Body>, pw: Passwords, issue: nat -> string, k: nat)
    requires UniqueEmails(rows) && Credentials(body).Success?
    requires k < |rows| && rows[k].email == Credentials(body).value.0
    requires pw.check(rows[k].passwordHash, Credentials(body).value.1) && !rows[k].isActive
    ensures Login(rows, body, pw, issue) == Reject(401, InactiveAccount)
  {
  }

  /** With emails unique, `login` succeeds exactly for a known, active user
      whose password checks. */
  lemma LoginSucceedsIff(rows: seq<Row>, body: Option<Body>, pw: Passwords, issue: nat -> string)
    requires UniqueEmails(rows) && Credentials(body).Success?
    ensures var (email, password) := Credentials(body).value;
      Login(rows, body, pw, issue).status == 200 <==>
        exists i :: 0 <= i < |rows| && rows[i].email == email && pw.check(rows[i].passwordHash, password) && rows[i].isActive
  {
  }

  /** `validate_token`: the user named by the token must exist and be active. */
  function ValidateToken(rows: seq<Row>, identity: nat): (r: Response)
    ensures r.status == 200 || r.status == 401 || r.status == 404
    ensures r.status == 404 <==> forall i :: 0 <= i < |rows| ==> rows[i].id != identity
    ensures r.status == 404 ==> r == Reject(404, NotFound)
    ensures r.status == 401 ==>
      r == Reject(401, InactiveAccount) && exists i :: 0 <= i < |rows| && rows[i].id == identity && !rows[i].isActive
    ensures r.status == 200 ==>
      exists i :: (0 <= i < |rows| && rows[i].id == identity && rows[i].isActive &&
        r.payload == ValidPayload("Token is valid", Serialize(rows[i])))
  {
    match RowWithId(rows, identity)
    case None => Reject(404, NotFound)
    case Some(i) =>
      if !rows[i].isActive then Reject(401, InactiveAccount)
      else Response(200, ValidPayload("Token is valid", Serialize(rows[i])))
  }

  /** `get_user`: the user named by the token must exist; its active flag is not looked at. */
  function GetUser(rows: seq<Row>, identity: nat): (r: Response)
    ensures r.status == 200 || r.status == 404
    ensures r.status == 404 <==> forall i :: 0 <= i < |rows| ==> rows[i].id != identity
    ensures r.status == 404 ==> r == Reject(404, NotFound)
    ensures r.status == 200 ==>
      exists i :: 0 <= i < |rows| && rows[i].id == identity && r.payload == ProfilePayload(Serialize(rows[i]))
  {
    match RowWithId(rows, identity)
    case None => Reject(404, NotFound)
    case Some(i) => Response(200, ProfilePayload(Serialize(rows[i])))
  }

  /** `get_user` answers 404 exactly when `validate_token` does, serves the
      inactive users that `validate_token` refuses, and otherwise returns the
      same user. */
  lemma GetUserIgnoresActivity(rows: seq<Row>, identity: nat)
    ensures GetUser(rows, identity).status == 404 <==> ValidateToken(rows, identity).status == 404
    ensures ValidateToken(rows, identity).status == 401 ==> GetUser(rows, identity).status == 200
    ensures ValidateToken(rows, identity).status == 200 ==>
      GetUser(rows, identity).payload.user == ValidateToken(rows, identity).payload.user
  {
  }

  /** A user just signed up can log in with the same body, and receives a
      token for the new id (given that the password check accepts the hash
      made from the same password). */
  lemma SignupThenLogin(rows: seq<Row>, id: nat, body: Option<Body>, pw: Passwords, issue: nat -> string)
    requires SignupGuard(rows, body).Success?
    requires pw.check(pw.hash(SignupGuard(rows, body).value.1), SignupGuard(rows, body).value.1)
    ensures var (email, password) := SignupGuard(rows, body).value;
      Login(rows + [Row(id, email, pw.hash(password), true)], body, pw, issue) ==
        Response(200, LoginPayload("Login successful", issue(id), Profile(id, email)))
  {
    var (email, password) := SignupGuard(rows, body).value;
    var row := Row(id, email, pw.hash(password), true);
    FirstWithEmailAppend(rows, row);
  }

  /** The user table: its rows and the id the next insert receives. */
  class UserTable {
    var rows: seq<Row>
    var nextId: nat

    /** Ids are positive, below the next id and unique; emails are unique. */
    ghost predicate Valid()
      reads this
    {
      0 < nextId && (forall i :: 0 <= i < |rows| ==> 0 < rows[i].id < nextId) &&
      UniqueIds(rows) && UniqueEmails(rows)
    }

    constructor ()
      ensures Valid() && rows == [] && nextId == 1
    {
      rows, nextId := [], 1;
    }

    /** `signup`: on a rejected body or a taken email the table is left as it
        was; otherwise one active user with that email is appended, existing
        rows are untouched, and the answer is 201 with the new user. */
    method Signup(body: Option<Body>, pw: Passwords) returns (r: Response)
      requires Valid()
      modifies this
      ensures Valid()
      ensures SignupGuard(old(rows), body).Failure? ==>
        r == SignupGuard(old(rows), body).error && rows == old(rows) && nextId == old(nextId)
      ensures SignupGuard(old(rows), body).Success? ==>
        var (email, password) := SignupGuard(old(rows), body).value;
        var row := Row(old(nextId), email, pw.hash(password), true);
        rows == old(rows) + [row] && nextId == old(nextId) + 1 &&
        r == Response(201, CreatedPayload("User created successfully", Serialize(row)))
      ensures r.status == 201 || r.status == 400
    {
      var guard := SignupGuard(rows, body);
      if guard.Failure? {
        return guard.error;
      }
      var (email, password) := guard.value;
      var row := Row(nextId, email, pw.hash(password), true);
      ghost var before := rows;
      assert forall i :: 0 <= i < |before| ==> before[i].email != email && before[i].id != row.id;
      rows := rows + [row];
      forall i, j | 0 <= i < j < |rows|
        ensures rows[i].id != rows[j].id && rows[i].email != rows[j].email
      {
        if j < |before| {
          assert rows[i] == before[i] && rows[j] == before[j];
        } else {
          assert rows[i] == before[i] && rows[j] == row;
        }
      }
      nextId := nextId + 1;
      r := Response(201, CreatedPayload("User created successfully", Serialize(row)));
    }
  }
}
