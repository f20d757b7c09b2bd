/** The account actions (register, log in, log out) as transitions over a
    user registry (email ↦ id and password hash) and the browser's one
    `auth_token` cookie slot. The database, bcrypt and JWT signing are
    oracles: the registry lookup or the insert can fail, the password check
    and the hash are given functions, and signing may fail. */
module Accounts {
  import opened Seqs
  import opened Guard

  datatype User = User(id: nat, passwordHash: string)

  datatype Cookie = Cookie(name: string, value: string, httpOnly: bool, secure: bool, sameSite: string, maxAge: nat)

  /** The registry, the id the next inserted user receives, and the cookie slot. */
  datatype State = State(users: map<string, User>, nextId: nat, cookie: Option<Cookie>)

  /** What the session token is signed over: the user id, the algorithm,
      the expiry given to the signer and the issue time (`iat`), which the
      signer stamps from the clock, so each sign-in gets a fresh token. */
  datatype Claims = Claims(userId: nat, alg: string, expiresIn: string, issuedAt: nat)

  /** The collaborators the actions call; `now` is the clock reading the
      signer stamps into the token. */
  datatype Oracles = Oracles(
    production: bool,
    now: nat,
    secretDefined: bool,
    lookupFails: bool,
    insertFails: bool,
    passwordMatches: (string, string) -> bool,
    hashOf: string -> string,
    sign: Claims -> Option<string>)

  datatype UserView = UserView(id: nat, email: string)
  datatype Outcome = Ok(user: UserView) | Err(error: string)
  datatype Transition = Transition(state: State, outcome: Outcome)

  const TermsRequired := "You must accept the terms and conditions"
  const UserExists := "User already exists"
  const InvalidCredentials := "Invalid credentials"
  const Unexpected := "An unexpected error occurred"

  /** The cookie lives one hour while the token inside it is signed to
      expire after one day; both values are kept as written. */
  const CookieMaxAge: nat := 3600
  const TokenExpiry := "1d"

  function ClaimsFor(id: nat, now: nat): Claims {
    Claims(id, "HS256", TokenExpiry, now)
  }

  function SessionCookieOf(token: string, o: Oracles): Cookie {
    Cookie(SessionCookie, token, true, o.production, "strict", CookieMaxAge)
  }

  /** The cookie a successful action leaves: the token signed for `id`. */
  predicate IsSessionFor(c: Option<Cookie>, id: nat, o: Oracles) {
    && c.Some?
    && o.sign(ClaimsFor(id, o.now)).Some?
    && c.value == SessionCookieOf(o.sign(ClaimsFor(id, o.now)).value, o)
  }

  /** loginUser. */
  function Login(s: State, email: string, password: string, o: Oracles): (t: Transition)
    ensures t.state.users == s.users && t.state.nextId == s.nextId
    ensures t.outcome.Ok? <==>
              && !o.lookupFails
              && email in s.users
              && o.passwordMatches(password, s.users[email].passwordHash)
              && o.sign(ClaimsFor(s.users[email].id, o.now)).Some?
    ensures t.outcome.Ok? ==>
              t.outcome.user == UserView(s.users[email].id, email) && IsSessionFor(t.state.cookie, s.users[email].id, o)
    ensures t.outcome.Err? ==> t.state == s
    ensures t.outcome.Err? ==> t.outcome.error == InvalidCredentials || t.outcome.error == Unexpected
    ensures !o.lookupFails && !(email in s.users && o.passwordMatches(password, s.users[email].passwordHash))
            ==> t.outcome == Err(InvalidCredentials)
    ensures o.lookupFails ==> t == Transition(s, Err(Unexpected))
    ensures t.outcome.Err? && !o.lookupFails && email in s.users
            ==> (o.passwordMatches(password, s.users[email].passwordHash) ==> t.outcome.error == Unexpected)
  {
    if o.lookupFails then
      Transition(s, Err(Unexpected))
    else if email in s.users && o.passwordMatches(password, s.users[email].passwordHash) then
      var user := s.users[email];
      match o.sign(ClaimsFor(user.id, o.now))
      case None => Transition(s, Err(Unexpected))
      case Some(token) =>
        Transition(s.(cookie := Some(SessionCookieOf(token, o))), Ok(UserView(user.id, email)))
    else
      Transition(s, Err(InvalidCredentials))
  }

  /** registerUser. The new user is inserted before the secret is checked
      and the token signed, so a failure there leaves the user registered
      without a session. */
  function Register(s: State, email: string, password: string, acceptedTerms: bool, o: Oracles): (t: Transition)
    ensures !acceptedTerms ==> t == Transition(s, Err(TermsRequired))
    ensures acceptedTerms && !o.lookupFails && email in s.users ==> t == Transition(s, Err(UserExists))
    ensures t.outcome.Ok? <==>
              acceptedTerms && !o.lookupFails && email !in s.users && !o.insertFails
              && o.secretDefined && o.sign(ClaimsFor(s.nextId, o.now)).Some?
    ensures t.outcome.Ok? ==> t.outcome.user == UserView(s.nextId, email) && IsSessionFor(t.state.cookie, s.nextId, o)
    ensures t.state != s ==>
              && email !in s.users
              && t.state.users == s.users[email := User(s.nextId, o.hashOf(password))]
              && t.state.nextId == s.nextId + 1
    ensures t.outcome.Err? ==> t.state.cookie == s.cookie
    ensures t.state != s && t.outcome.Err? ==> t.outcome.error == Unexpected
    ensures acceptedTerms && (o.lookupFails || (email !in s.users && o.insertFails))
            ==> t == Transition(s, Err(Unexpected))
    ensures acceptedTerms && !o.lookupFails && email !in s.users && !o.insertFails
            ==> t.state.users == s.users[email := User(s.nextId, o.hashOf(password))] && t.state.nextId == s.nextId + 1
    ensures acceptedTerms && !o.lookupFails && email !in s.users && !o.insertFails && !o.secretDefined
            ==> t.outcome == Err(Unexpected) && email in t.state.users
  {
    if !acceptedTerms then
      Transition(s, Err(TermsRequired))
    else if o.lookupFails then
      Transition(s, Err(Unexpected))
    else if email in s.users then
      Transition(s, Err(UserExists))
    else if o.insertFails then
      Transition(s, Err(Unexpected))
    else
      var id := s.nextId;
      var inserted := s.(users := s.users[email := User(id, o.hashOf(password))], nextId := id + 1);
      if !o.secretDefined then
        Transition(inserted, Err(Unexpected))
      else
        match o.sign(ClaimsFor(id, o.now))
        case None => Transition(inserted, Err(Unexpected))
        case Some(token) =>
          Transition(inserted.(cookie := Some(SessionCookieOf(token, o))), Ok(UserView(id, email)))
  }

  datatype LogoutReply = LogoutReply(success: bool, message: string)

  /** logoutUser: delete the cookie; always succeeds. */
  function Logout(s: State): (r: (State, LogoutReply))
    ensures r.0.cookie.None?
    ensures r.0.users == s.users && r.0.nextId == s.nextId
    ensures r.1.success
  {
    (s.(cookie := None), LogoutReply(true, "Logged out successfully"))
  }

  /** The registry invariant: every id was handed out before `nextId`, and
      no two emails share an id. */
  predicate WellFormed(s: State) {
    && (forall e :: e in s.users ==> s.users[e].id < s.nextId)
    && (forall e1, e2 :: e1 in s.users && e2 in s.users && e1 != e2 ==> s.users[e1].id != s.users[e2].id)
  }

  /** Every action keeps the registry well formed, and none of them changes
      or removes a registered user. */
  lemma ActionsPreserveWellFormed(s: State, email: string, password: string, acceptedTerms: bool, o: Oracles)
    requires WellFormed(s)
    ensures WellFormed(Register(s, email, password, acceptedTerms, o).state)
    ensures WellFormed(Login(s, email, password, o).state)
    ensures WellFormed(Logout(s).0)
    ensures var t := Register(s, email, password, acceptedTerms, o).state;
            forall e :: e in s.users ==> e in t.users && t.users[e] == s.users[e]
  {
    var t := Register(s, email, password, acceptedTerms, o).state;
    if t != s {
      forall e1, e2 | e1 in t.users && e2 in t.users && e1 != e2
        ensures t.users[e1].id != t.users[e2].id
      {
        if e1 == email {
          assert t.users[e2] == s.users[e2];
        } else if e2 == email {
          assert t.users[e1] == s.users[e1];
        }
      }
    }
  }

  /** Registering an email that is already taken fails, whatever else holds,
      as long as the lookup succeeds and the terms are accepted. */
  lemma SecondRegistrationRejected(s: State, email: string, p1: string, p2: string, o: Oracles)
    requires !o.lookupFails
    ensures var t := Register(s, email, p1, true, o);
            t.state != s || email in s.users ==>
              Register(t.state, email, p2, true, o) == Transition(t.state, Err(UserExists))
  {
  }

  /** A user left behind by registration can log in with the same password,
      provided the hash accepts the password it was made from. */
  lemma RegisteredUserCanLogIn(s: State, email: string, password: string, o: Oracles)
    requires o.passwordMatches(password, o.hashOf(password))
    requires !o.lookupFails
    requires Register(s, email, password, true, o).state != s
    ensures var t := Register(s, email, password, true, o).state;
            Login(t, email, password, o).outcome.Ok? <==> o.sign(ClaimsFor(s.nextId, o.now)).Some?
  {
    var t := Register(s, email, password, true, o).state;
    assert t.users[email] == User(s.nextId, o.hashOf(password));
  }

  /** The error of a failed login does not tell an unknown email from a
      wrong password. */
  lemma LoginHidesUnknownEmails(s: State, unknown: string, known: string, p1: string, p2: string, o: Oracles)
    requires unknown !in s.users
    requires known in s.users && !o.passwordMatches(p2, s.users[known].passwordHash)
    ensures Login(s, unknown, p1, o) == Login(s, known, p2, o)
  {
  }

  /** The browser's cookies as the guard reads them. */
  function Jar(s: State): map<string, string>
  {
    match s.cookie
    case None => map[]
    case Some(c) => map[c.name := c.value]
  }

  /** After logging out, every guarded path redirects to the login page
      without a cookie to delete. */
  lemma LoggedOutIsRedirected(s: State, path: string, verifies: string -> bool)
    requires !Excluded(path)
    ensures Middleware(Request(path, Jar(Logout(s).0)), verifies) == Redirect(LoginPath, false)
  {
  }

  /** After a successful login, a guarded path passes exactly when the
      issued token is non-empty and verifies, and otherwise the cookie is
      deleted (or, if empty, treated as absent). */
  lemma LoggedInIsAdmitted(s: State, email: string, password: string, o: Oracles, path: string, verifies: string -> bool)
    requires !Excluded(path)
    requires Login(s, email, password, o).outcome.Ok?
    ensures var t := Login(s, email, password, o).state;
            var token := t.cookie.value.value;
            Middleware(Request(path, Jar(t)), verifies)
              == (if token == "" then Redirect(LoginPath, false)
                  else if verifies(token) then Next
                  else Redirect(LoginPath, true))
  {
    var t := Login(s, email, password, o).state;
    assert t.cookie.value.name == SessionCookie;
  }

  /** Logging out twice is the same as logging out once. */
  lemma LogoutIdempotent(s: State)
    ensures Logout(Logout(s).0) == Logout(s)
  {
  }
}
