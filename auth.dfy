/** Session tokens: the login-time user record and session, and the token check
    every protected operation performs (main.py:66-78, 223-229). */
module Auth {
  import opened Outcomes
  import opened Schemas

  /** `timedelta(days=7)`, in seconds. */
  const SessionLifetime: int := 7 * 24 * 60 * 60

  datatype LoginRequest = LoginRequest(email: string, name: Option<string>, preferredLanguage: Option<string>)
  datatype LoginResponse = LoginResponse(token: string, email: string, name: Option<string>)

  /** The user document inserted by `$setOnInsert` when the email is new. */
  function LoginUser(req: LoginRequest): (u: User)
    ensures u.email == req.email && u.isActive
    ensures u.name == (if req.name.Some? && req.name.value != "" then req.name.value else "Citizen")
    ensures u.preferredLanguage ==
            (if req.preferredLanguage.Some? && req.preferredLanguage.value != "" then req.preferredLanguage.value else "en")
  {
    User(OrDefault(req.name, "Citizen"), req.email, OrDefault(req.preferredLanguage, "en"), true)
  }

  /** `update_one({"email": ...}, {"$setOnInsert": ...}, upsert=True)`: insert if absent, never update. */
  function UpsertUser(users: map<string, User>, req: LoginRequest): (r: map<string, User>)
    ensures req.email in r && r.Keys == users.Keys + {req.email}
    ensures forall e :: e in users ==> e in r && r[e] == users[e]
    ensures req.email !in users ==> r[req.email] == LoginUser(req)
  {
    if req.email in users then users else users[req.email := LoginUser(req)]
  }

  /** The session written at login time `now`. */
  function NewSession(req: LoginRequest, token: string, now: int): (s: Session)
    ensures s.userEmail == req.email && s.token == token
    ensures s.expiresAt - now == SessionLifetime
  {
    Session(req.email, token, now + SessionLifetime)
  }

  /** A second login with the same email changes nothing in the user table,
      whatever name and language it carries. */
  lemma UpsertIsCreateOnly(users: map<string, User>, first: LoginRequest, second: LoginRequest)
    requires first.email == second.email
    ensures UpsertUser(UpsertUser(users, first), second) == UpsertUser(users, first)
  {
  }

  /** The stored language is not checked against the user schema: a login asking
      for a language other than en or hi stores a user the schema would reject. */
  lemma LoginSkipsLanguageCheck(email: string)
    ensures !ValidUser(UpsertUser(map[], LoginRequest(email, None, Some("fr")))[email])
  {
  }

  /** Matches the session query: this token, expiring strictly after `now`. */
  predicate Live(s: Session, token: string, now: int) {
    s.token == token && s.expiresAt > now
  }

  /** `find_one`: the position of the first live session for `token`, in store order. */
  function FindSession(sessions: seq<Session>, token: string, now: int): (r: Option<nat>)
    ensures r.Some? ==> r.value < |sessions| && Live(sessions[r.value], token, now)
    ensures r.Some? ==> forall j :: 0 <= j < r.value ==> !Live(sessions[j], token, now)
    ensures r.None? ==> forall j :: 0 <= j < |sessions| ==> !Live(sessions[j], token, now)
  {
    if sessions == [] then None
    else if Live(sessions[0], token, now) then Some(0)
    else match FindSession(sessions[1..], token, now)
      case Some(i) => Some(i + 1)
      case None => None
  }

  /** `awaitable_get_user`: the email bound to a live session for `token`. */
  function Authenticate(sessions: seq<Session>, token: string, now: int): (r: Result<string>)
    ensures token == "" ==> r == Err(Unauthorized(MissingToken))
    ensures r.Ok? <==> token != "" && exists i :: 0 <= i < |sessions| && Live(sessions[i], token, now)
    ensures r.Ok? ==> exists i :: 0 <= i < |sessions| && Live(sessions[i], token, now)
                                  && sessions[i].userEmail == r.value
    ensures token != "" && r.Err? ==> r.error == Unauthorized(InvalidOrExpiredToken)
  {
    if token == "" then Err(Unauthorized(MissingToken))
    else match FindSession(sessions, token, now)
      case Some(i) => Ok(sessions[i].userEmail)
      case None => Err(Unauthorized(InvalidOrExpiredToken))
  }

  /** A session is accepted strictly before its expiry and refused from the expiry instant on. */
  lemma ValidUntilExpiry(s: Session, now: int)
    ensures Authenticate([s], s.token, now).Ok? <==> s.token != "" && now < s.expiresAt
  {
    if s.token != "" && now < s.expiresAt {
      assert Live([s][0], s.token, now);
    }
  }

  lemma {:induction false} FindSessionAppend(sessions: seq<Session>, s: Session, token: string, now: int)
    ensures FindSession(sessions + [s], token, now) ==
            match FindSession(sessions, token, now)
            case Some(i) => Some(i)
            case None => if Live(s, token, now) then Some(|sessions|) else None
    decreases |sessions|
  {
    if sessions != [] {
      assert (sessions + [s])[1..] == sessions[1..] + [s];
      FindSessionAppend(sessions[1..], s, token, now);
    } else {
      assert ([s])[1..] == [];
    }
  }

  /** Appending a session never changes whom an already accepted token identifies. */
  lemma AppendKeepsAcceptedTokens(sessions: seq<Session>, s: Session, token: string, now: int)
    requires Authenticate(sessions, token, now).Ok?
    ensures Authenticate(sessions + [s], token, now) == Authenticate(sessions, token, now)
  {
    FindSessionAppend(sessions, s, token, now);
  }

  /** After a login with a token no earlier session carries, that token identifies the
      login's email for seven days and is refused afterwards. */
  lemma LoginTokenAuthenticates(sessions: seq<Session>, req: LoginRequest, token: string, now: int, later: int)
    requires token != ""
    requires forall i :: 0 <= i < |sessions| ==> sessions[i].token != token
    ensures Authenticate(sessions + [NewSession(req, token, now)], token, later) ==
            if later < now + SessionLifetime then Ok(req.email) else Err(Unauthorized(InvalidOrExpiredToken))
  {
    FindSessionAppend(sessions, NewSession(req, token, now), token, later);
  }
}
