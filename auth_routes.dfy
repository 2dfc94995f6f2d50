/**
 * The handlers under src/app/api/auth: login, logout, session and me. The
 * session token (a UUID), the clock and the deployment mode are parameters,
 * and a request body that is not JSON is an absent body.
 */
module AuthRoutes {
  import opened Wrappers
  import opened Text
  import opened Auth
  import opened Db
  import opened Session
  import opened Http

  /** The fields of a login request body. */
  datatype Credentials = Credentials(username: Option<string>, password: Option<string>)

  /** JavaScript truthiness of a string field: present and non-empty. */
  predicate Present(s: Option<string>) {
    s.Some? && s.value != ""
  }

  /** What the credential checks decide once the username has been looked up. */
  datatype Verdict = MissingCredentials | InvalidCredentials | Accepted(user: UserRow)

  /**
   * The early-return checks of the login handler: missing fields first, then
   * the user lookup and the password comparison, which fail alike.
   */
  function Decide(c: Credentials, found: Option<UserRow>): (v: Verdict)
    ensures v.MissingCredentials? <==> !Present(c.username) || !Present(c.password)
    ensures v.Accepted? <==> Present(c.username) && Present(c.password) && found.Some?
                             && Compare(c.password.value, found.value.password)
    ensures v.Accepted? ==> v.user == found.value
  {
    if !Present(c.username) || !Present(c.password) then MissingCredentials
    else if found.None? then InvalidCredentials
    else if !Compare(c.password.value, found.value.password) then InvalidCredentials
    else Accepted(found.value)
  }

  /** The response of a rejected login. */
  function Rejection(v: Verdict): (res: Response)
    requires !v.Accepted?
    ensures v.MissingCredentials? ==> res.status == 400
    ensures v.InvalidCredentials? ==> res.status == 401
    ensures res.cookie.None?
  {
    if v.MissingCredentials? then Json(400, Error("Missing credentials"))
    else Json(401, Error("Invalid credentials"))
  }

  /** An unknown username and a wrong password are answered identically. */
  lemma UnknownUserLooksLikeWrongPassword(c: Credentials, u: UserRow)
    requires Present(c.username) && Present(c.password)
    requires !Compare(c.password.value, u.password)
    ensures Rejection(Decide(c, None)) == Rejection(Decide(c, Some(u)))
    ensures Rejection(Decide(c, None)) == Json(401, Error("Invalid credentials"))
  {
  }

  /** Seven days, in seconds. */
  const SessionMaxAge := 60 * 60 * 24 * 7

  /** The cookie a successful login sets. */
  function SessionCookie(token: string, production: bool): Cookie {
    Cookie("session", token, true, true, production, Some(SessionMaxAge), false, "/")
  }

  /** The cookie logout sets: empty and already expired. */
  const ClearedCookie := Cookie("session", "", true, false, false, None, true, "/")

  /** Some stored user has this username and this password hashes to its stored hash. */
  ghost predicate Known(users: map<int, UserRow>, username: string, password: string) {
    exists id :: id in users && users[id].username == username && Compare(password, users[id].password)
  }

  /** A token that the cookie parser reads back unchanged, as every UUID is. */
  predicate CookieSafe(token: string) {
    token != [] && ';' !in token && !IsSpace(token[|token| - 1])
  }

  /** POST /api/auth/login. */
  method Login(db: Store, body: Option<Credentials>, token: string, now: int, production: bool) returns (res: Response)
    requires db.Valid()
    modifies db
    ensures db.Valid()
    ensures db.users == old(db.users) && db.families == old(db.families) && db.members == old(db.members)
    ensures db.nextUserId == old(db.nextUserId) && db.nextFamilyId == old(db.nextFamilyId)
    ensures db.nextMemberId == old(db.nextMemberId)
    ensures body.None? ==> res == Json(500, Error("Server error"))
    ensures body.Some? && !(Present(body.value.username) && Present(body.value.password)) ==>
              res == Json(400, Error("Missing credentials"))
    ensures body.Some? && Present(body.value.username) && Present(body.value.password)
            && !Known(old(db.users), body.value.username.value, body.value.password.value) ==>
              res == Json(401, Error("Invalid credentials"))
    ensures body.Some? && Present(body.value.username) && Present(body.value.password)
            && Known(old(db.users), body.value.username.value, body.value.password.value) ==>
              (res.status == 200 <==> token !in old(db.sessions))
    ensures res.status != 200 ==> db.sessions == old(db.sessions)
    ensures res.status == 200 ==>
              exists id :: id in old(db.users) && old(db.users)[id].username == body.value.username.value
                && res == Response(200, UserJson(Project(old(db.users)[id])), Some(SessionCookie(token, production)))
                && db.sessions == old(db.sessions)[token := SessionRow(id, now)]
    ensures res.status == 200 && CookieSafe(token) ==>
              ServerSession(db, Some("session=" + token)) == Some(SessionInfo(res.body.user))
  {
    if body.None? {
      return Json(500, Error("Server error"));
    }
    var c := body.value;
    if !Present(c.username) || !Present(c.password) {
      return Rejection(Decide(c, None));
    }
    var found := db.FindUserByUsername(c.username.value);
    var verdict := Decide(c, found);
    if !verdict.Accepted? {
      return Rejection(verdict);
    }
    var user := verdict.user;
    var ok := db.CreateSession(user.id, token, now);
    if !ok {
      return Json(500, Error("Server error"));
    }
    res := Response(200, UserJson(Project(user)), Some(SessionCookie(token, production)));
    if CookieSafe(token) {
      ResolvesOwnCookie(db, token);
    }
  }

  /**
   * POST /api/auth/logout. `cookie` is the request's `session` cookie; its
   * session row is removed when it has a value, and the cookie is always cleared.
   */
  method Logout(db: Store, cookie: Option<string>) returns (res: Response)
    requires db.Valid()
    modifies db
    ensures db.Valid()
    ensures res == Response(200, Success, Some(ClearedCookie))
    ensures db.sessions == if cookie.Some? && cookie.value != "" then old(db.sessions) - {cookie.value} else old(db.sessions)
    ensures db.users == old(db.users) && db.families == old(db.families) && db.members == old(db.members)
    ensures db.nextUserId == old(db.nextUserId) && db.nextFamilyId == old(db.nextFamilyId)
    ensures db.nextMemberId == old(db.nextMemberId)
    ensures cookie.Some? && cookie.value != "" ==> cookie.value !in db.sessions
  {
    if cookie.Some? && cookie.value != "" {
      db.DeleteSession(cookie.value);
    }
    res := Response(200, Success, Some(ClearedCookie));
  }

  /**
   * GET /api/auth/session: whether the cookie resolves, never a 401. The
   * handler has no `catch`, so `fault`, a failing session lookup, reaches the
   * framework as an unhandled 500.
   */
  function SessionStatus(db: Store, header: Option<string>, fault: bool): (res: Response)
    reads db
    ensures fault ==> res == Json(500, Unhandled)
    ensures !fault ==> res.status == 200 && res.cookie.None?
    ensures !fault ==> (res.body == Unauthenticated <==> ServerSession(db, header).None?)
    ensures !fault && ServerSession(db, header).Some? ==> res.body == Authenticated(ServerSession(db, header).value.user)
  {
    if fault then Json(500, Unhandled)
    else match ServerSession(db, header)
      case None => Json(200, Unauthenticated)
      case Some(s) => Json(200, Authenticated(s.user))
  }

  /** GET /api/auth/me; `fault` stands for a failing session lookup. */
  function Me(db: Store, header: Option<string>, fault: bool): (res: Response)
    reads db
    ensures fault ==> res == Json(500, Error("Internal Server Error"))
    ensures !fault && ServerSession(db, header).None? ==> res == Json(401, Error("Not authenticated"))
    ensures !fault && ServerSession(db, header).Some? ==> res == Json(200, SessionJson(ServerSession(db, header).value))
  {
    if fault then Json(500, Error("Internal Server Error"))
    else match ServerSession(db, header)
      case None => Json(401, Error("Not authenticated"))
      case Some(s) => Json(200, SessionJson(s))
  }
}
