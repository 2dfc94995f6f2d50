/**
 * The store-facing half of src/lib/auth.ts: resolving the request's session
 * cookie to a user and the two role gates built on it.
 */
module Session {
  import opened Wrappers
  import opened Auth
  import opened Db

  /**
   * `getServerSession`: an absent or empty token, or one without a session
   * row, resolves to nothing; otherwise the session's user, projected.
   */
  function ServerSession(db: Store, header: Option<string>): (r: Option<SessionInfo>)
    reads db
    ensures r.Some? <==> var t := ExtractSessionToken(header);
                         t.Some? && t.value != "" && t.value in db.sessions && db.sessions[t.value].userId in db.users
    ensures r.Some? ==> var t := ExtractSessionToken(header).value;
                        r.value.user == Project(db.users[db.sessions[t].userId])
  {
    var t := ExtractSessionToken(header);
    if t.None? || t.value == "" || t.value !in db.sessions then None
    else
      var uid := db.sessions[t.value].userId;
      if uid !in db.users then None else Some(SessionInfo(Project(db.users[uid])))
  }

  /** `getUserFromSession`, and `requireAuth`, which returns the same. */
  function UserFromSession(db: Store, header: Option<string>): (r: Option<PublicUser>)
    reads db
    ensures r.Some? <==> ServerSession(db, header).Some?
    ensures r.Some? ==> r.value == ServerSession(db, header).value.user
  {
    match ServerSession(db, header)
    case None => None
    case Some(s) => Some(s.user)
  }

  /** `requireAdmin`: the session's user when its role is ADMIN or SUPERADMIN. */
  function RequireAdmin(db: Store, header: Option<string>): (r: Option<PublicUser>)
    reads db
    ensures r.Some? <==> UserFromSession(db, header).Some? && IsAdminRole(UserFromSession(db, header).value.role)
    ensures r.Some? ==> r == UserFromSession(db, header)
  {
    var u := UserFromSession(db, header);
    if u.Some? && IsAdminRole(u.value.role) then u else None
  }

  /** A header carrying only the cookie of a stored session resolves to that session's user. */
  lemma ResolvesOwnCookie(db: Store, token: string)
    requires ';' !in token && token != [] && !Text.IsSpace(token[|token| - 1])
    requires token in db.sessions && db.sessions[token].userId in db.users
    ensures ServerSession(db, Some("session=" + token)) == Some(SessionInfo(Project(db.users[db.sessions[token].userId])))
  {
    OnlySessionCookie(token);
  }

  /** Once a token's session row is gone, a header carrying it resolves to nothing. */
  lemma DeletedTokenResolvesToNothing(db: Store, header: Option<string>)
    requires ExtractSessionToken(header).Some?
    requires ExtractSessionToken(header).value !in db.sessions
    ensures ServerSession(db, header).None?
  {
  }
}
