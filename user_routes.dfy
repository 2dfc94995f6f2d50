/**
 * src/app/api/users/route.ts: the admin-only listing of accounts and the
 * admin-only account insert, which stores the password's hash.
 */
module UserRoutes {
  import opened Wrappers
  import opened Auth
  import opened Db
  import opened Session
  import opened Http
  import opened Ordering

  /** The body of a create request; an absent password makes the hash call throw. */
  datatype UserInput = UserInput(username: string, name: string, role: string, password: Option<string>)

  /** GET /api/users: 401 unless admin, otherwise every stored row, password column included, by username. */
  method GetUsers(db: Store, header: Option<string>) returns (res: Response)
    ensures RequireAdmin(db, header).None? ==> res == Unauthorized
    ensures RequireAdmin(db, header).Some? ==>
              res.status == 200 && res.cookie.None? && res.body.UsersJson?
              && |res.body.users| == |db.users|
              && (forall id :: id in db.users ==> db.users[id] in res.body.users)
              && (forall u :: u in res.body.users ==> u in db.users.Values)
              && (forall i, j :: 0 <= i < j < |res.body.users| ==> StrLe(res.body.users[i].username, res.body.users[j].username))
  {
    if RequireAdmin(db, header).None? {
      return Unauthorized;
    }
    var rows := db.ListUsers();
    res := Json(200, UsersJson(rows));
  }

  /**
   * POST /api/users. Errors after the admin check are not caught, so they
   * reach the framework as an unhandled 500: a body that is not JSON, a
   * missing password, or a username that is already taken.
   */
  method PostUser(db: Store, header: Option<string>, body: Option<UserInput>) returns (res: Response)
    requires db.Valid()
    modifies db
    ensures db.Valid()
    ensures db.sessions == old(db.sessions) && db.families == old(db.families) && db.members == old(db.members)
    ensures db.nextFamilyId == old(db.nextFamilyId) && db.nextMemberId == old(db.nextMemberId)
    ensures old(RequireAdmin(db, header)).None? ==>
              res == Unauthorized && db.users == old(db.users) && db.nextUserId == old(db.nextUserId)
    ensures res.status == 201 || res == Unauthorized || res == Json(500, Unhandled)
    ensures old(RequireAdmin(db, header)).Some? ==> res.status == 201 || res == Json(500, Unhandled)
    ensures body.None? || body.value.password.None? ==> db.nextUserId == old(db.nextUserId)
    ensures old(RequireAdmin(db, header)).Some? && body.Some? && body.value.password.Some? ==>
              db.nextUserId == old(db.nextUserId) + 1
    ensures res.status == 201 <==>
              && old(RequireAdmin(db, header)).Some? && body.Some? && body.value.password.Some?
              && old(db.nextUserId) !in old(db.users)
              && forall id :: id in old(db.users) ==> old(db.users)[id].username != body.value.username
    ensures res.status == 201 ==>
              var d := body.value;
              var row := UserRow(old(db.nextUserId), d.username, d.name, d.role, Hash(d.password.value));
              && res.body == UserRowJson(row)
              && db.users == old(db.users)[row.id := row]
              && row.password != d.password.value
    ensures res.status != 201 ==> db.users == old(db.users)
  {
    if RequireAdmin(db, header).None? {
      return Unauthorized;
    }
    if body.None? || body.value.password.None? {
      return Json(500, Unhandled);
    }
    var d := body.value;
    var hashed := Hash(d.password.value);
    var row := db.InsertUser(d.username, d.name, d.role, hashed);
    if row.None? {
      return Json(500, Unhandled);
    }
    res := Json(201, UserRowJson(row.value));
  }
}
