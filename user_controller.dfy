/**
  The user controller of the shop's REST API: registration (`create`), the
  credential check (`login`) and the two lookups (`one`, `all`), over a user
  table keyed by username.

  The password hashing library is not modelled: its `hash` and `verify` come
  in as the functions of an `Argon2` value, and the exceptions that hashing or
  the database insert may throw come in as `Faults`.
 */
module UserController {
  import opened Wrappers

  /** A row of the user table. There is no column for the raw password. */
  datatype User = User(
    username: string,
    passwordHash: string,
    firstName: string,
    lastName: string,
    email: string,
    userId: Option<string>)

  /** The body of a registration request; `None` is a field the request does not carry. */
  datatype RegisterBody = RegisterBody(
    username: Option<string>,
    password: Option<string>,
    firstname: Option<string>,
    lastname: Option<string>,
    email: Option<string>,
    id: Option<string>)

  /** The hashing library: `hash(password)` gives a digest, `verify(digest, password)` checks one. */
  datatype Argon2 = Argon2(hash: string -> string, verify: (string, string) -> bool)

  /** Which of the awaited calls of one registration throw. */
  datatype Faults = Faults(hashThrows: bool, createThrows: bool)

  datatype ResponseBody = UserBody(user: User) | ErrorBody(error: string)

  /** The status code and JSON body a handler sends. */
  datatype Response = Response(status: int, body: ResponseBody)

  const AllFieldsRequired: string := "All fields are required."
  const UnexpectedError: string := "An unexpected error occurred."

  /** A string field is truthy in JavaScript when it is present and not empty. */
  predicate Truthy(f: Option<string>): (b: bool)
    ensures f.None? ==> !b
    ensures f == Some("") ==> !b
    ensures f.Some? && |f.value| > 0 ==> b
  {
    f.Some? && f.value != ""
  }

  /** The validation rule of registration: all five required fields are truthy (`id` is not required). */
  predicate AllFieldsPresent(b: RegisterBody): (ok: bool)
    ensures ok <==> forall f | f in [b.username, b.password, b.firstname, b.lastname, b.email] :: f.Some? && f.value != ""
    ensures !ok ==> b.username in {None, Some("")} || b.password in {None, Some("")} || b.firstname in {None, Some("")}
                    || b.lastname in {None, Some("")} || b.email in {None, Some("")}
  {
    Truthy(b.username) && Truthy(b.password) && Truthy(b.firstname) && Truthy(b.lastname) && Truthy(b.email)
  }

  /** The library's own promise: a digest of a password verifies against that password. */
  ghost predicate Sound(a: Argon2) {
    forall p :: a.verify(a.hash(p), p)
  }

  /** A hash function that never returns its input unchanged. */
  ghost predicate NoFixedPoint(hash: string -> string) {
    forall p :: hash(p) != p
  }

  /** Every row is stored under its own username. */
  ghost predicate KeyedByUsername(users: map<string, User>) {
    forall k :: k in users ==> users[k].username == k
  }

  /** What one registration does: its response, the table after it, and whether the password was hashed. */
  datatype CreateOutcome = CreateOutcome(response: Response, users: map<string, User>, hashed: bool)

  /**
    Registration. Because username is the table's primary key, inserting a
    username that is already present makes the insert throw, like any other
    database failure.
   */
  function CreateResult(users: map<string, User>, b: RegisterBody, argon: Argon2, faults: Faults): (r: CreateOutcome)
    ensures r.response.status in {201, 400, 500}
    ensures r.response.status == 400 <==> !AllFieldsPresent(b)
    ensures r.response.status == 400 ==>
              r.response.body == ErrorBody(AllFieldsRequired) && r.users == users && !r.hashed
    ensures r.hashed <==> AllFieldsPresent(b)
    ensures r.response.status == 201 <==>
              AllFieldsPresent(b) && !faults.hashThrows && !faults.createThrows && b.username.value !in users
    ensures r.response.status == 201 ==>
              var u := User(b.username.value, argon.hash(b.password.value), b.firstname.value,
                            b.lastname.value, b.email.value, b.id);
              r.users == users[u.username := u] && r.response.body == UserBody(u)
    ensures r.response.status == 500 ==> r.response.body == ErrorBody(UnexpectedError) && r.users == users
  {
    if !AllFieldsPresent(b) then
      CreateOutcome(Response(400, ErrorBody(AllFieldsRequired)), users, false)
    else if faults.hashThrows then
      CreateOutcome(Response(500, ErrorBody(UnexpectedError)), users, true)
    else
      var user := User(b.username.value, argon.hash(b.password.value), b.firstname.value, b.lastname.value,
                       b.email.value, b.id);
      if faults.createThrows || user.username in users then
        CreateOutcome(Response(500, ErrorBody(UnexpectedError)), users, true)
      else
        CreateOutcome(Response(201, UserBody(user)), users[user.username := user], true)
  }

  /** The login decision: no user, or a digest that does not verify, gives null; otherwise the user. */
  function LoginResult(users: map<string, User>, username: string, password: string, verify: (string, string) -> bool)
    : (r: Option<User>)
    ensures r.Some? <==> username in users && verify(users[username].passwordHash, password)
    ensures r.Some? ==> r.value == users[username]
  {
    if username !in users || !verify(users[username].passwordHash, password) then None
    else Some(users[username])
  }

  /** An unknown user and a wrong password give the same answer. */
  lemma FailedLoginsLookAlike(users: map<string, User>, unknown: string, known: string, password: string,
                              verify: (string, string) -> bool)
    requires unknown !in users
    requires known in users && !verify(users[known].passwordHash, password)
    ensures LoginResult(users, unknown, password, verify) == LoginResult(users, known, password, verify) == None
  {
  }

  /** Registration keeps the table keyed by username. */
  lemma CreateKeepsKeys(users: map<string, User>, b: RegisterBody, argon: Argon2, faults: Faults)
    requires KeyedByUsername(users)
    ensures KeyedByUsername(CreateResult(users, b, argon, faults).users)
  {
  }

  /** Registration changes no row it did not insert. */
  lemma CreateOnlyAdds(users: map<string, User>, b: RegisterBody, argon: Argon2, faults: Faults, k: string)
    requires k in users
    ensures var after := CreateResult(users, b, argon, faults).users;
            k in after && after[k] == users[k]
  {
  }

  /** With a hash that never returns its input, the stored digest is not the raw password. */
  lemma RawPasswordNotStored(users: map<string, User>, b: RegisterBody, argon: Argon2, faults: Faults)
    requires NoFixedPoint(argon.hash)
    requires CreateResult(users, b, argon, faults).response.status == 201
    ensures var after := CreateResult(users, b, argon, faults).users;
            b.username.value in after && after[b.username.value].passwordHash != b.password.value
  {
  }

  /**
    The raw password reaches nothing but the hash: two requests that differ
    only in their (non-empty) passwords, and whose passwords hash alike, have
    the same outcome.
   */
  lemma OnlyDigestStored(users: map<string, User>, b1: RegisterBody, b2: RegisterBody, argon: Argon2, faults: Faults)
    requires b2 == b1.(password := b2.password)
    requires Truthy(b1.password) && Truthy(b2.password)
    requires argon.hash(b1.password.value) == argon.hash(b2.password.value)
    ensures CreateResult(users, b1, argon, faults) == CreateResult(users, b2, argon, faults)
  {
  }

  /** After a registration succeeds, logging in with the same username and password returns the new row. */
  lemma RegisteredUserCanLogIn(users: map<string, User>, b: RegisterBody, argon: Argon2, faults: Faults)
    requires Sound(argon)
    requires CreateResult(users, b, argon, faults).response.status == 201
    ensures var r := CreateResult(users, b, argon, faults);
            r.response.body.UserBody? &&
            LoginResult(r.users, b.username.value, b.password.value, argon.verify) == Some(r.response.body.user)
  {
  }

  /** The user table, changed only by registration. */
  class UserTable {
    var users: map<string, User>

    ghost predicate Valid()
      reads this
    {
      KeyedByUsername(users)
    }

    constructor ()
      ensures Valid() && users == map[]
    {
      users := map[];
    }

    /** The `create` handler, POST /api/user. */
    method Create(b: RegisterBody, argon: Argon2, faults: Faults) returns (response: Response, hashed: bool)
      requires Valid()
      modifies this
      ensures Valid()
      ensures CreateOutcome(response, users, hashed) == CreateResult(old(users), b, argon, faults)
    {
      if !AllFieldsPresent(b) {
        return Response(400, ErrorBody(AllFieldsRequired)), false;
      }
      hashed := true;
      if faults.hashThrows {
        return Response(500, ErrorBody(UnexpectedError)), hashed;
      }
      var digest := argon.hash(b.password.value);
      var user := User(b.username.value, digest, b.firstname.value, b.lastname.value, b.email.value, b.id);
      if faults.createThrows || user.username in users {
        return Response(500, ErrorBody(UnexpectedError)), hashed;
      }
      users := users[user.username := user];
      response := Response(201, UserBody(user));
    }

    /**
      The `login` handler, GET /api/user/login. `verified` says whether `verify` was called: the
      `||` skips it when the user is unknown. Reads the table only.
     */
    method Login(username: string, password: string, argon: Argon2) returns (r: Option<User>, verified: bool)
      ensures r == LoginResult(users, username, password, argon.verify)
      ensures verified <==> username in users
    {
      var found := if username in users then Some(users[username]) else None;
      if found.None? {
        return None, false;
      }
      verified := true;
      var ok := argon.verify(found.value.passwordHash, password);
      r := if ok then found else None;
    }

    /** The `one` handler: a lookup by primary key. Reads the table only. */
    method One(id: string) returns (r: Option<User>)
      requires Valid()
      ensures r.Some? <==> id in users
      ensures r.Some? ==> r.value.username == id
      ensures r.Some? ==> r.value == users[id]
    {
      r := if id in users then Some(users[id]) else None;
    }

    /** The `all` handler: every row. Reads the table only. */
    method All() returns (r: set<User>)
      ensures forall u :: u in r <==> u in users.Values
    {
      r := users.Values;
    }
  }
}
