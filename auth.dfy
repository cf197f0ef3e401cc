/** Local-account authentication: the password check behind login, registration,
    the user object a session restores, and the middleware that guards the API. */
module Auth {
  import opened Schema

  datatype Claims = Claims(sub: string)

  /** A row of the `users` table as loaded, with the `claims` the session layer may attach. */
  datatype User = User(
    id: string,
    email: Option<string>,
    username: string,
    password: string,
    firstName: Option<string>,
    lastName: Option<string>,
    profileImageUrl: Option<string>,
    claims: Option<Claims>)

  /** The user as sent back to the client: every member except `password`. */
  datatype SafeUser = SafeUser(
    id: string,
    email: Option<string>,
    username: string,
    firstName: Option<string>,
    lastName: Option<string>,
    profileImageUrl: Option<string>,
    claims: Option<Claims>)

  /** `const { password, ...safeUser } = user`: every member but the password, unchanged. */
  function Safe(u: User): (s: SafeUser)
    ensures s.id == u.id && s.email == u.email && s.username == u.username
    ensures s.firstName == u.firstName && s.lastName == u.lastName
    ensures s.profileImageUrl == u.profileImageUrl && s.claims == u.claims
  {
    SafeUser(u.id, u.email, u.username, u.firstName, u.lastName, u.profileImageUrl, u.claims)
  }

  /** The password hashing library: `hash` for registration, `compare` for login. */
  datatype Bcrypt = Bcrypt(hash: string -> string, compare: (string, string) -> bool)

  /** The one thing relied on about the library: a password matches its own hash. */
  ghost predicate Sound(b: Bcrypt)
  {
    forall p :: b.compare(p, b.hash(p))
  }

  /** What the login strategy's verify callback decides. */
  datatype Verdict = Authenticated(user: User) | Rejected(message: string)

  /** The verify callback, given the user the username names (if any): an unknown user
      and a wrong password are told apart, and only a known user whose stored hash
      matches the password gets in. */
  function Verify(found: Option<User>, password: string, b: Bcrypt): (v: Verdict)
    ensures v.Authenticated? <==> found.Some? && b.compare(password, found.value.password)
    ensures v.Authenticated? ==> v.user == found.value
    ensures found.None? ==> v == Rejected("Incorrect username.")
    ensures found.Some? && !b.compare(password, found.value.password) ==> v == Rejected("Incorrect password.")
  {
    match found
    case None => Rejected("Incorrect username.")
    case Some(user) =>
      if !b.compare(password, user.password) then Rejected("Incorrect password.")
      else Authenticated(user)
  }

  /** The replies of the login and register routes. */
  datatype AuthResponse =
    | Success(status: int, message: string, user: SafeUser)
    | Failure(status: int, message: string)

  /** The login route's reply for a verdict: 401 with the verdict's message (or
      "Login failed" when it has none), or the user without its password. */
  function LoginReply(v: Verdict): (r: AuthResponse)
    ensures r.Success? <==> v.Authenticated?
    ensures v.Authenticated? ==> r == Success(200, "Logged in successfully", Safe(v.user))
    ensures v.Rejected? ==> r == Failure(401, if v.message != "" then v.message else "Login failed")
  {
    match v
    case Authenticated(user) => Success(200, "Logged in successfully", Safe(user))
    case Rejected(message) => Failure(401, if message != "" then message else "Login failed")
  }

  /** A user with this username is stored. */
  ghost predicate Taken(users: map<string, User>, username: string)
  {
    exists id :: id in users && users[id].username == username
  }

  /** Inserting `u` violates none of the table's keys: the generated id, and the unique
      `username` and `email` columns (SQL lets any number of rows leave `email` null). */
  ghost predicate Insertable(users: map<string, User>, u: User)
  {
    && u.id !in users
    && !Taken(users, u.username)
    && (u.email.Some? ==> forall id :: id in users ==> users[id].email != u.email)
  }

  /** The `users` table, in memory, by id. */
  class UserStore {
    var users: map<string, User>

    /** Rows sit under their own id, carry no `claims` (the table has no such column),
        and the unique columns hold no duplicates. */
    ghost predicate Valid()
      reads this
    {
      && (forall id :: id in users ==> users[id].id == id && users[id].claims.None?)
      && (forall i, j :: i in users && j in users && users[i].username == users[j].username ==> i == j)
      && (forall i, j :: i in users && j in users && users[i].email.Some? && users[i].email == users[j].email ==> i == j)
    }

    constructor ()
      ensures Valid() && users == map[]
    {
      users := map[];
    }

    /** Look a user up by id. */
    method GetUser(id: string) returns (u: Option<User>)
      requires Valid()
      ensures u.Some? <==> id in users
      ensures u.Some? ==> u.value == users[id] && u.value.id == id
    {
      if id in users {
        u := Some(users[id]);
      } else {
        u := None;
      }
    }

    /** Look a user up by username: the one user holding it, or nothing. */
    method GetUserByUsername(username: string) returns (u: Option<User>)
      requires Valid()
      ensures u.Some? <==> Taken(users, username)
      ensures u.Some? ==> u.value.id in users && users[u.value.id] == u.value && u.value.username == username
    {
      var unseen := users.Keys;
      while unseen != {}
        invariant unseen <= users.Keys
        invariant forall id :: id in users && id !in unseen ==> users[id].username != username
        decreases unseen
      {
        var id :| id in unseen;
        if users[id].username == username {
          return Some(users[id]);
        }
        unseen := unseen - {id};
      }
      u := None;
    }

    /** Insert a user: it succeeds and adds exactly that row when no key is violated,
        and fails leaving the table as it was otherwise. */
    method CreateUser(u: User) returns (ok: bool)
      requires Valid() && u.claims.None?
      modifies this
      ensures Valid()
      ensures ok <==> Insertable(old(users), u)
      ensures ok ==> users == old(users)[u.id := u]
      ensures !ok ==> users == old(users)
    {
      var existing := GetUserByUsername(u.username);
      ok := u.id !in users && existing.None?;
      if ok && u.email.Some? {
        var ids := users.Keys;
        while ids != {}
          invariant ids <= users.Keys
          invariant ok <==> forall id :: id in users && id !in ids ==> users[id].email != u.email
          decreases ids
        {
          var id :| id in ids;
          if users[id].email == u.email {
            ok := false;
          }
          ids := ids - {id};
        }
      }
      if ok {
        users := users[u.id := u];
      }
    }
  }

  /** The login route. The local strategy first takes both credentials from the body; a
      missing or empty one is rejected as "Missing credentials" before the verify callback
      runs. Otherwise: find the user by name, run the verify callback, shape the reply. */
  method Login(store: UserStore, username: Option<string>, password: Option<string>, b: Bcrypt)
    returns (r: AuthResponse)
    requires store.Valid()
    ensures !Truthy(username) || !Truthy(password) ==> r == Failure(401, "Missing credentials")
    ensures Truthy(username) && Truthy(password) && !Taken(store.users, username.value) ==>
      r == Failure(401, "Incorrect username.")
    ensures Truthy(username) && Truthy(password) ==>
      forall id :: id in store.users && store.users[id].username == username.value ==>
        r == LoginReply(Verify(Some(store.users[id]), password.value, b))
  {
    if !Truthy(username) || !Truthy(password) {
      return LoginReply(Rejected("Missing credentials"));
    }
    var found := store.GetUserByUsername(username.value);
    r := LoginReply(Verify(found, password.value, b));
  }

  /** A registered user logs in with the password they registered with. */
  lemma RegisteredUserLogsIn(users: map<string, User>, id: string, password: string, b: Bcrypt)
    requires Sound(b)
    requires id in users && users[id].password == b.hash(password)
    ensures Verify(Some(users[id]), password, b) == Authenticated(users[id])
    ensures LoginReply(Verify(Some(users[id]), password, b)).Success?
  {
    assert b.compare(password, b.hash(password));
  }

  /** The body of a register request; a member that was not sent is None. */
  datatype RegisterBody = RegisterBody(
    username: Option<string>,
    password: Option<string>,
    firstName: Option<string>,
    lastName: Option<string>,
    email: Option<string>)

  const AvatarBase := "https://ui-avatars.com/api/?name="

  /** JavaScript truthiness of a member that is a string when present. */
  predicate Truthy(f: Option<string>)
  {
    f.Some? && f.value != ""
  }

  /** The user registration stores under `id`: the password's hash and never the
      password itself, and an avatar URL made from the username. */
  function NewUser(id: string, username: string, password: string, body: RegisterBody, b: Bcrypt): (u: User)
    ensures u.id == id && u.username == username && u.password == b.hash(password)
    ensures u.profileImageUrl == Some(AvatarBase + username)
    ensures u.claims.None?
  {
    User(id, body.email, username, b.hash(password), body.firstName, body.lastName,
         Some(AvatarBase + username), None)
  }

  /** The register route. `newId` is the id the database generates for the row. Missing
      or empty credentials and a taken username are answered 400 and add no user; an
      insert the table refuses is answered 500; otherwise exactly one user is added. */
  method Register(store: UserStore, body: RegisterBody, newId: string, b: Bcrypt) returns (r: AuthResponse)
    requires store.Valid()
    modifies store
    ensures store.Valid()
    ensures !Truthy(body.username) || !Truthy(body.password) ==>
      r == Failure(400, "Username and password required") && store.users == old(store.users)
    ensures Truthy(body.username) && Truthy(body.password) && Taken(old(store.users), body.username.value) ==>
      r == Failure(400, "Username already exists") && store.users == old(store.users)
    ensures Truthy(body.username) && Truthy(body.password) && !Taken(old(store.users), body.username.value) ==>
      var u := NewUser(newId, body.username.value, body.password.value, body, b);
      if Insertable(old(store.users), u) then
        r == Success(201, "Registered successfully", Safe(u)) && store.users == old(store.users)[newId := u]
      else
        r == Failure(500, "Internal Server Error") && store.users == old(store.users)
  {
    if !Truthy(body.username) || !Truthy(body.password) {
      return Failure(400, "Username and password required");
    }
    var username, password := body.username.value, body.password.value;
    var existing := store.GetUserByUsername(username);
    if existing.Some? {
      return Failure(400, "Username already exists");
    }
    var u := NewUser(newId, username, password, body, b);
    var ok := store.CreateUser(u);
    if !ok {
      return Failure(500, "Internal Server Error");
    }
    r := Success(201, "Registered successfully", Safe(u));
  }

  /** Registering and then logging in with the same credentials lets the user in. */
  method RegisterThenLogin(store: UserStore, body: RegisterBody, newId: string, b: Bcrypt)
    returns (registered: AuthResponse, loggedIn: AuthResponse)
    requires store.Valid() && Sound(b)
    modifies store
    ensures registered.Success? ==> loggedIn == Success(200, "Logged in successfully", registered.user)
  {
    registered := Register(store, body, newId, b);
    if registered.Success? {
      loggedIn := Login(store, body.username, body.password, b);
      RegisteredUserLogsIn(store.users, newId, body.password.value, b);
    } else {
      loggedIn := Failure(401, "Login failed");
    }
  }

  /** Attach `claims = { sub: id }` unless the user already carries claims. */
  function Normalize(u: User): (n: User)
    ensures n.claims.Some?
    ensures u.claims.Some? ==> n == u
    ensures u.claims.None? ==> n == u.(claims := Some(Claims(u.id)))
  {
    if u.claims.None? then u.(claims := Some(Claims(u.id))) else u
  }

  /** Restoring the session's user from the id it stored: nothing for an empty id or an
      unknown user; otherwise the stored user, whose `claims.sub` is then its own id,
      the owner id the platform handlers read. */
  method DeserializeUser(store: UserStore, id: string) returns (r: Option<User>)
    requires store.Valid()
    ensures r.Some? <==> id != "" && id in store.users
    ensures r.Some? ==> r.value == store.users[id].(claims := Some(Claims(id)))
    ensures r.Some? ==> r.value.claims.value.sub == id
  {
    if id == "" {
      return None;
    }
    var user := store.GetUser(id);
    if user.None? {
      return None;
    }
    r := Some(Normalize(user.value));
  }

  /** What `req.isAuthenticated` is on a request: not a function (passport not attached),
      or a function with the answer it gives. */
  datatype AuthProbe = NotAFunction | Function(answer: bool)

  datatype Gate = Next | Reject401

  /** The middleware: the request goes on only when `isAuthenticated` is a function that
      answers true; every other request is answered 401. */
  function IsAuthenticated(probe: AuthProbe): (g: Gate)
    ensures g == Next <==> probe == Function(true)
    ensures g != Next ==> g == Reject401
  {
    if probe.Function? && probe.answer then Next else Reject401
  }
}
