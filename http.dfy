/** The responses the route handlers produce: a status, a JSON body and at most one cookie. */
module Http {
  import opened Wrappers
  import opened Auth
  import opened Db

  /** The attributes a handler sets on its `Set-Cookie`. */
  datatype Cookie = Cookie(
    name: string, value: string, httpOnly: bool, sameSiteLax: bool, secure: bool,
    maxAge: Option<int>, expiresAtEpoch: bool, path: string)

  /** The JSON bodies the handlers send. */
  datatype Body =
    | Error(error: string)                  // { error }
    | UserJson(user: PublicUser)            // { id, username, name, role }
    | Success                               // { success: true }
    | Ok                                    // { ok: true }
    | Unauthenticated                       // { authenticated: false }
    | Authenticated(user: PublicUser)       // { authenticated: true, user }
    | SessionJson(session: SessionInfo)     // { user: { id, username, name, role } }
    | FamiliesJson(families: seq<FamilyRecord>)
    | FamilyJson(family: FamilyRecord)
    | UsersJson(users: seq<UserRow>)
    | UserRowJson(row: UserRow)
    | Unhandled                             // the framework's answer to an uncaught error

  datatype Response = Response(status: int, body: Body, cookie: Option<Cookie>)

  function Json(status: int, body: Body): Response {
    Response(status, body, None)
  }

  const Unauthorized := Json(401, Error("Unauthorized"))
}
