/** The server's authentication: the bearer-token middleware
    (`authenticateToken`) and the register and login routes. Password
    hashing, token signing and the database are abstracted: a stored hash is
    an opaque string and checking a password against it is a parameter; a
    signed token is kept symbolically (its claims, the secret it was signed
    with, its issue and expiry times) and reading one out of its wire form
    is a parameter; the `users` table is a sequence of rows plus the next
    auto-increment id. */
module Auth {
  import opened Wrappers
  import opened Strings
  import opened Lists

  // ---------------------------------------------------------------------------
  // Tokens

  /** What a token carries: the signed claims and the issue and expiry
      times (seconds) that signing adds. */
  datatype Payload = Payload(userId: int, username: string, iat: int, exp: int)

  /** A signed token, with the secret it was signed with. */
  datatype Token = Token(payload: Payload, secret: string)

  /** `expiresIn: '24h'`, in seconds. */
  const TokenLifetime: int := 24 * 60 * 60

  /** `process.env.JWT_SECRET || 'secret'`. */
  function JwtSecret(env: Option<string>): (s: string)
    ensures TruthyOpt(env) ==> s == env.value
    ensures !TruthyOpt(env) ==> s == "secret"
  {
    if TruthyOpt(env) then env.value else "secret"
  }

  /** `jwt.sign({ userId, username }, secret, { expiresIn: '24h' })` at time `now`. */
  function Sign(userId: int, username: string, secret: string, now: int): (t: Token)
    ensures t.payload.userId == userId && t.payload.username == username
    ensures t.payload.exp - t.payload.iat == TokenLifetime
  {
    Token(Payload(userId, username, now, now + TokenLifetime), secret)
  }

  /** `jwt.verify`: the payload, if the token was signed with this secret
      and has not expired. */
  function Verify(t: Token, secret: string, now: int): (p: Option<Payload>)
    ensures p.Some? <==> t.secret == secret && now < t.payload.exp
    ensures p.Some? ==> p.value == t.payload
  {
    if t.secret == secret && now < t.payload.exp then Some(t.payload) else None
  }

  /** A token is accepted from its signing until just before 24 hours later. */
  lemma SignedTokenLifetime(userId: int, username: string, secret: string, issued: int, now: int)
    ensures Verify(Sign(userId, username, secret, issued), secret, now).Some? <==> now < issued + 86400
  {
  }

  // ---------------------------------------------------------------------------
  // The bearer-token middleware

  /** `authHeader && authHeader.split(' ')[1]`, kept when truthy: the second
      space-separated part of the header. The first part is not checked. */
  function BearerToken(header: Option<string>): (token: Option<string>)
    ensures token.Some? ==> token.value != "" && ' ' !in token.value
  {
    if !TruthyOpt(header) then None
    else
      var parts := Split(header.value, ' ');
      if |parts| >= 2 && Truthy(parts[1]) then Some(parts[1]) else None
  }

  /** `Bearer <token>` yields the token. */
  lemma BearerTokenOfHeader(scheme: string, token: string)
    requires ' ' !in scheme && ' ' !in token && token != ""
    ensures BearerToken(Some(scheme + " " + token)) == Some(token)
  {
    SplitAfterHead(scheme, ' ', token);
    SplitNoSep(token, ' ');
    assert scheme + " " + token == scheme + [' '] + token;
  }

  /** With more after the token, the token is still the second part: a
      header `<scheme> <token> <rest>` yields `token`, and an empty second
      part (two spaces after the scheme) yields none. */
  lemma BearerTokenSecondPart(scheme: string, token: string, rest: string)
    requires ' ' !in scheme && ' ' !in token
    ensures BearerToken(Some(scheme + " " + token + " " + rest)) == if token != "" then Some(token) else None
  {
    assert scheme + " " + token + " " + rest == scheme + [' '] + (token + [' '] + rest);
    SplitAfterHead(scheme, ' ', token + [' '] + rest);
    SplitAfterHead(token, ' ', rest);
  }

  /** A missing or empty header, or one without a space, has no token. */
  lemma NoBearerToken(header: Option<string>)
    requires header.None? || ' ' !in header.value
    ensures BearerToken(header) == None
  {
    if header.Some? {
      SplitNoSep(header.value, ' ');
    }
  }

  /** How the middleware ends: the status it sends, or `next()` called with
      `req.user` set. */
  datatype Outcome = Outcome(status: Option<int>, user: Option<Payload>, nextCalls: nat)

  /** `authenticateToken`. `decode` reads a token out of its wire form;
      `env` is `process.env.JWT_SECRET`. */
  function Authenticate(header: Option<string>, decode: string -> Option<Token>, env: Option<string>, now: int): (o: Outcome)
    ensures BearerToken(header).None? ==> o == Outcome(Some(401), None, 0)
    ensures BearerToken(header).Some? ==>
      var token := decode(BearerToken(header).value);
      if token.Some? && token.value.secret == JwtSecret(env) && now < token.value.payload.exp
      then o == Outcome(None, Some(token.value.payload), 1)
      else o == Outcome(Some(403), None, 0)
    ensures o.nextCalls == 1 <==> o.status.None?
    ensures o.nextCalls <= 1
  {
    match BearerToken(header)
    case None => Outcome(Some(401), None, 0)
    case Some(raw) =>
      match decode(raw)
      case None => Outcome(Some(403), None, 0)
      case Some(token) =>
        match Verify(token, JwtSecret(env), now)
        case None => Outcome(Some(403), None, 0)
        case Some(payload) => Outcome(None, Some(payload), 1)
  }

  /** A token issued at login or registration, sent as `Bearer <token>`,
      lets the request through for 24 hours with its claims as `req.user`,
      and is refused with 403 (not 401) afterwards. */
  lemma IssuedTokenAuthenticates(t: Token, encode: Token -> string, decode: string -> Option<Token>,
                                 env: Option<string>, now: int)
    requires decode(encode(t)) == Some(t) && t.secret == JwtSecret(env)
    requires encode(t) != "" && ' ' !in encode(t)
    ensures now < t.payload.exp ==>
      Authenticate(Some("Bearer " + encode(t)), decode, env, now) == Outcome(None, Some(t.payload), 1)
    ensures now >= t.payload.exp ==>
      Authenticate(Some("Bearer " + encode(t)), decode, env, now) == Outcome(Some(403), None, 0)
  {
    BearerTokenOfHeader("Bearer", encode(t));
    assert "Bearer" + " " + encode(t) == "Bearer " + encode(t);
  }

  // ---------------------------------------------------------------------------
  // Users, register and login

  /** A row of `users`, with the columns the routes touch. */
  datatype User = User(
    id: int,
    username: string,
    email: string,
    passwordHash: string,
    avatarUrl: Option<string>,
    themePreference: Option<string>)

  datatype Db = Db(users: seq<User>, nextId: int)

  /** The user record a registration returns: no hash. */
  datatype NewUser = NewUser(id: int, username: string, email: string)

  /** The user record a login returns: no hash. */
  datatype PublicUser = PublicUser(id: int, username: string, email: string,
                                   avatarUrl: Option<string>, themePreference: Option<string>)

  datatype Body =
    | Message(message: string)
    | Registered(message: string, token: Token, newUser: NewUser)
    | LoggedIn(message: string, token: Token, user: PublicUser)

  datatype Response = Response(status: int, body: Body)

  /** `SELECT id FROM users WHERE email = ? OR username = ?` finds a row. */
  predicate Taken(db: Db, username: string, email: string) {
    exists i :: 0 <= i < |db.users| && (db.users[i].email == email || db.users[i].username == username)
  }

  /** `POST /api/register`. `hashed` is the bcrypt hash computed for this
      request; the token is signed with the secret `env` selects. */
  function Register(db: Db, username: string, email: string, hashed: string, env: Option<string>, now: int)
    : (r: (Response, Db))
    ensures Taken(db, username, email) ==>
      r == (Response(400, Message("User already exists")), db)
    ensures !Taken(db, username, email) ==>
      && r.1 == Db(db.users + [User(db.nextId, username, email, hashed, None, None)], db.nextId + 1)
      && r.0.status == 201
      && r.0.body == Registered("User created successfully", Sign(db.nextId, username, JwtSecret(env), now),
                                NewUser(db.nextId, username, email))
  {
    if Taken(db, username, email) then (Response(400, Message("User already exists")), db)
    else
      var id := db.nextId;
      var user := User(id, username, email, hashed, None, None);
      (Response(201, Registered("User created successfully", Sign(id, username, JwtSecret(env), now),
                                NewUser(id, username, email))),
       Db(db.users + [user], id + 1))
  }

  function HasEmail(email: string): User -> bool {
    (u: User) => u.email == email
  }

  const InvalidCredentials: Response := Response(401, Message("Invalid credentials"))

  /** `POST /api/login`. `compare` is `bcrypt.compare`. The first row with
      the email is the one checked; the token is signed with the secret
      `env` selects. */
  function Login(db: Db, email: string, password: string, compare: (string, string) -> bool,
                 env: Option<string>, now: int): (r: Response)
    ensures r.status == 401 ==> r == InvalidCredentials
    ensures r.status == 200 || r.status == 401
    ensures r.status == 200 <==>
      var rows := Filter(db.users, HasEmail(email));
      |rows| > 0 && compare(password, rows[0].passwordHash)
  {
    var rows := Filter(db.users, HasEmail(email));
    if |rows| == 0 then InvalidCredentials
    else
      var user := rows[0];
      if !compare(password, user.passwordHash) then InvalidCredentials
      else Response(200, LoggedIn("Login successful", Sign(user.id, user.username, JwtSecret(env), now),
                                  PublicUser(user.id, user.username, user.email, user.avatarUrl, user.themePreference)))
  }

  /** An unknown email and a wrong password get the very same answer. */
  lemma LoginFailuresAlike(db: Db, email: string, password: string, compare: (string, string) -> bool,
                           env: Option<string>, now: int)
    ensures (forall u :: u in db.users ==> u.email != email) ==>
      Login(db, email, password, compare, env, now) == InvalidCredentials
    ensures (forall u :: u in db.users && u.email == email ==> !compare(password, u.passwordHash)) ==>
      Login(db, email, password, compare, env, now) == InvalidCredentials
  {
    var rows := Filter(db.users, HasEmail(email));
    if |rows| > 0 {
      assert rows[0] in rows;
    }
  }

  /** A successful login signs the user's id and name for 24 hours and
      returns the row without its hash. */
  lemma LoginSuccess(db: Db, email: string, password: string, compare: (string, string) -> bool,
                     env: Option<string>, now: int)
    requires Login(db, email, password, compare, env, now).status == 200
    ensures
      var u := Filter(db.users, HasEmail(email))[0];
      && u in db.users && u.email == email
      && Login(db, email, password, compare, env, now).body ==
           LoggedIn("Login successful", Token(Payload(u.id, u.username, now, now + TokenLifetime), JwtSecret(env)),
                    PublicUser(u.id, u.username, u.email, u.avatarUrl, u.themePreference))
  {
  }

  /** The token a login hands out opens the authenticated routes of the same
      server for 24 hours, with the logged-in user's id and name. */
  lemma LoginTokenAuthenticates(db: Db, email: string, password: string, compare: (string, string) -> bool,
                                env: Option<string>, now: int, later: int,
                                encode: Token -> string, decode: string -> Option<Token>)
    requires Login(db, email, password, compare, env, now).status == 200
    requires var t := Login(db, email, password, compare, env, now).body.token;
      decode(encode(t)) == Some(t) && encode(t) != "" && ' ' !in encode(t)
    ensures
      var t := Login(db, email, password, compare, env, now).body.token;
      var u := Filter(db.users, HasEmail(email))[0];
      later < now + TokenLifetime ==>
        Authenticate(Some("Bearer " + encode(t)), decode, env, later)
          == Outcome(None, Some(Payload(u.id, u.username, now, now + TokenLifetime)), 1)
  {
    LoginSuccess(db, email, password, compare, env, now);
    var t := Login(db, email, password, compare, env, now).body.token;
    IssuedTokenAuthenticates(t, encode, decode, env, later);
  }

  /** With `JWT_SECRET` unset or empty, every server falls back to the same
      secret, so a token anyone signs with `'secret'` is accepted. */
  lemma UnsetSecretAcceptsDefault(t: Token, encode: Token -> string, decode: string -> Option<Token>,
                                  env: Option<string>, now: int)
    requires !TruthyOpt(env)
    requires decode(encode(t)) == Some(t) && encode(t) != "" && ' ' !in encode(t)
    ensures now < t.payload.exp ==>
      (Authenticate(Some("Bearer " + encode(t)), decode, env, now).user == Some(t.payload)
       <==> t.secret == "secret")
  {
    BearerTokenOfHeader("Bearer", encode(t));
    assert "Bearer" + " " + encode(t) == "Bearer " + encode(t);
  }

  /** No two rows share an email or a username, and every id is below the
      next one to be given out. */
  ghost predicate Consistent(db: Db) {
    && (forall i, j :: 0 <= i < j < |db.users| ==>
          db.users[i].email != db.users[j].email && db.users[i].username != db.users[j].username)
    && (forall i :: 0 <= i < |db.users| ==> db.users[i].id < db.nextId)
  }

  /** Registration keeps emails and usernames unique and ids fresh. */
  lemma RegisterKeepsConsistent(db: Db, username: string, email: string, hashed: string, env: Option<string>, now: int)
    requires Consistent(db)
    ensures Consistent(Register(db, username, email, hashed, env, now).1)
  {
  }

  /** After registering, logging in with the same email and password (whose
      hash checks out) succeeds as the new user. */
  lemma {:induction false} RegisterThenLogin(db: Db, username: string, email: string, password: string,
                                             hashed: string, compare: (string, string) -> bool,
                                             env: Option<string>, now: int, later: int)
    requires !Taken(db, username, email)
    requires compare(password, hashed)
    ensures
      var db' := Register(db, username, email, hashed, env, now).1;
      Login(db', email, password, compare, env, later) ==
        Response(200, LoggedIn("Login successful", Sign(db.nextId, username, JwtSecret(env), later),
                               PublicUser(db.nextId, username, email, None, None)))
  {
    var user := User(db.nextId, username, email, hashed, None, None);
    var db' := Register(db, username, email, hashed, env, now).1;
    FilterAppend(db.users, [user], HasEmail(email));
    FilterNone(db.users, HasEmail(email));
  }
}
