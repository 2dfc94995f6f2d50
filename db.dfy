/**
 * The relational store behind the API routes, as in-memory tables: users,
 * sessions, families and members, each keyed by its primary key, with one
 * auto-increment counter per table. An insert that names its own id does not
 * move the counter (the way a database sequence behaves), and an insert whose
 * key is already taken fails like a unique-constraint violation. Reads that
 * include a family's members list them by ascending member id: the queries
 * name no order for included members, and this is the one the model fixes.
 */
module Db {
  import opened Wrappers
  import opened Auth
  import opened Ordering

  datatype UserRow = UserRow(id: int, username: string, name: string, role: string, password: string)

  datatype SessionRow = SessionRow(userId: int, createdAt: int)

  /** The columns of a family other than its id; `membershipNumber` is nullable. */
  datatype FamilyData = FamilyData(
    membershipNumber: Option<string>, familyName: string, address: string, phone: string,
    email: string, joinDate: string, status: string, aiSummary: Option<string>, createdBy: Option<string>)

  datatype FamilyRow = FamilyRow(id: int, data: FamilyData)

  /** The columns of a member other than its id and its family. */
  datatype MemberFields = MemberFields(
    firstName: string, lastName: string, birthDate: string, role: string,
    gender: Option<string>, notes: Option<string>, email: Option<string>, phone: Option<string>)

  datatype MemberRow = MemberRow(id: int, familyId: int, fields: MemberFields)

  /** A member to insert; an absent id is drawn from the counter. */
  datatype MemberData = MemberData(id: Option<int>, fields: MemberFields)

  /** A family read with its members included. */
  datatype FamilyRecord = FamilyRecord(family: FamilyRow, members: seq<MemberRow>)

  /** Neither the family id nor any member id of a batch is taken, and the member ids differ. */
  ghost predicate FitsIn(families: map<int, FamilyRow>, members: map<int, MemberRow>, fid: int, mids: seq<int>) {
    fid !in families && Distinct(mids) && forall i :: 0 <= i < |mids| ==> mids[i] !in members
  }

  ghost predicate Distinct(ids: seq<int>) {
    forall i, j :: 0 <= i < j < |ids| ==> ids[i] != ids[j]
  }

  ghost predicate Increasing(ids: seq<int>) {
    forall i, j :: 0 <= i < j < |ids| ==> ids[i] < ids[j]
  }

  /** How many members of a batch take their id from the counter. */
  function AutoCount(ms: seq<MemberData>): nat
  {
    if ms == [] then 0 else AutoCount(ms[..|ms| - 1]) + (if ms[|ms| - 1].id.None? then 1 else 0)
  }

  /** The id each member of a batch receives when the member counter stands at `next`. */
  function MemberIds(ms: seq<MemberData>, next: int): (ids: seq<int>)
    ensures |ids| == |ms|
    ensures forall i :: 0 <= i < |ms| && ms[i].id.Some? ==> ids[i] == ms[i].id.value
  {
    if ms == [] then []
    else
      var prefix := ms[..|ms| - 1];
      var last := ms[|ms| - 1];
      MemberIds(prefix, next) + [if last.id.Some? then last.id.value else next + AutoCount(prefix)]
  }

  /** A batch without explicit ids receives consecutive ids from the counter. */
  lemma {:induction false} AutoIdsConsecutive(ms: seq<MemberData>, next: int)
    requires forall i :: 0 <= i < |ms| ==> ms[i].id.None?
    ensures AutoCount(ms) == |ms|
    ensures forall i :: 0 <= i < |ms| ==> MemberIds(ms, next)[i] == next + i
  {
    if ms != [] {
      AutoIdsConsecutive(ms[..|ms| - 1], next);
    }
  }

  /** The member rows a batch becomes once its ids are known. */
  function BatchRows(ms: seq<MemberData>, ids: seq<int>, familyId: int): (rows: map<int, MemberRow>)
    requires |ids| == |ms| && Distinct(ids)
    ensures rows.Keys == set i | 0 <= i < |ids| :: ids[i]
    ensures forall i :: 0 <= i < |ms| ==> rows[ids[i]] == MemberRow(ids[i], familyId, ms[i].fields)
  {
    map i | 0 <= i < |ms| :: ids[i] := MemberRow(ids[i], familyId, ms[i].fields)
  }

  /** The identity a session exposes: every column of the user except the password. */
  function Project(u: UserRow): (p: PublicUser)
  {
    PublicUser(u.id, u.username, u.name, u.role)
  }

  class Store {
    var users: map<int, UserRow>
    var sessions: map<string, SessionRow>
    var families: map<int, FamilyRow>
    var members: map<int, MemberRow>
    var nextUserId: int
    var nextFamilyId: int
    var nextMemberId: int

    /** Keys match row ids, usernames are unique, and every foreign key resolves. */
    ghost predicate Valid()
      reads this
    {
      && (forall id :: id in users ==> users[id].id == id)
      && (forall a, b :: a in users && b in users && users[a].username == users[b].username ==> a == b)
      && (forall t :: t in sessions ==> sessions[t].userId in users)
      && (forall id :: id in families ==> families[id].id == id)
      && (forall id :: id in members ==> members[id].id == id && members[id].familyId in families)
    }

    /** The members `ms` are exactly the members of family `fid`, by ascending id. */
    ghost predicate MembersOfFamily(ms: seq<MemberRow>, fid: int)
      reads this
    {
      OwnedBy(members, ms, fid)
    }

    constructor ()
      ensures Valid()
      ensures users == map[] && sessions == map[] && families == map[] && members == map[]
      ensures nextUserId == 1 && nextFamilyId == 1 && nextMemberId == 1
    {
      users, sessions, families, members := map[], map[], map[], map[];
      nextUserId, nextFamilyId, nextMemberId := 1, 1, 1;
    }

    // -------------------------------------------------------------------------
    // sessions
    // -------------------------------------------------------------------------

    /** Stores a session row for `token`; the insert fails when the token is taken or the user is unknown. */
    method CreateSession(userId: int, token: string, now: int) returns (ok: bool)
      requires Valid()
      modifies this
      ensures Valid()
      ensures ok == (token !in old(sessions) && userId in old(users))
      ensures sessions == if ok then old(sessions)[token := SessionRow(userId, now)] else old(sessions)
      ensures users == old(users) && families == old(families) && members == old(members)
      ensures nextUserId == old(nextUserId) && nextFamilyId == old(nextFamilyId) && nextMemberId == old(nextMemberId)
    {
      ok := token !in sessions && userId in users;
      if ok {
        sessions := sessions[token := SessionRow(userId, now)];
      }
    }

    /** Removes the session of `token`; an unknown token is a silent no-op. */
    method DeleteSession(token: string)
      requires Valid()
      modifies this
      ensures Valid()
      ensures sessions == old(sessions) - {token}
      ensures users == old(users) && families == old(families) && members == old(members)
      ensures nextUserId == old(nextUserId) && nextFamilyId == old(nextFamilyId) && nextMemberId == old(nextMemberId)
    {
      sessions := sessions - {token};
    }

    // -------------------------------------------------------------------------
    // users
    // -------------------------------------------------------------------------

    /** `findUnique({ where: { username } })`. */
    method FindUserByUsername(username: string) returns (r: Option<UserRow>)
      requires forall id :: id in users ==> users[id].id == id
      ensures r.Some? ==> r.value.id in users && users[r.value.id] == r.value && r.value.username == username
      ensures r.None? ==> forall id :: id in users ==> users[id].username != username
    {
      var rest := users.Keys;
      r := None;
      while rest != {}
        invariant rest <= users.Keys
        invariant r.None? ==> forall id :: id in users && id !in rest ==> users[id].username != username
        invariant r.Some? ==> r.value.id in users && users[r.value.id] == r.value && r.value.username == username
        decreases |rest|
      {
        HasElement(rest);
        var id :| id in rest;
        if users[id].username == username {
          r := Some(users[id]);
        }
        rest := rest - {id};
      }
    }

    /** `findMany({ orderBy: { username: "asc" } })`: every row, password column included. */
    method ListUsers() returns (rows: seq<UserRow>)
      ensures |rows| == |users|
      ensures forall id :: id in users ==> users[id] in rows
      ensures forall u :: u in rows ==> u in users.Values
      ensures forall i, j :: 0 <= i < j < |rows| ==> StrLe(rows[i].username, rows[j].username)
    {
      var ids := SortedIds(users.Keys);
      var byId: seq<UserRow> := [];
      var i := 0;
      while i < |ids|
        invariant 0 <= i <= |ids| && |byId| == i
        invariant forall k :: 0 <= k < i ==> ids[k] in users && byId[k] == users[ids[k]]
      {
        assert ids[i] in ids;
        byId := byId + [users[ids[i]]];
        i := i + 1;
      }
      forall id | id in users ensures users[id] in byId {
        assert id in ids;
        var k :| 0 <= k < |ids| && ids[k] == id;
        assert byId[k] == users[id];
      }
      rows := SortBy(byId, UsernameKey);
      SortBySorted(byId, UsernameKey);
      SameElements(rows, byId);
    }

    /** Inserts a user row whose password column is already hashed; a taken username or id fails. */
    method InsertUser(username: string, name: string, role: string, password: string) returns (r: Option<UserRow>)
      requires Valid()
      modifies this
      ensures Valid()
      ensures nextUserId == old(nextUserId) + 1
      ensures r.Some? <==> old(nextUserId) !in old(users) && forall id :: id in old(users) ==> old(users)[id].username != username
      ensures r.Some? ==> r.value == UserRow(old(nextUserId), username, name, role, password)
                          && users == old(users)[r.value.id := r.value]
      ensures r.None? ==> users == old(users)
      ensures sessions == old(sessions) && families == old(families) && members == old(members)
      ensures nextFamilyId == old(nextFamilyId) && nextMemberId == old(nextMemberId)
    {
      var existing := FindUserByUsername(username);
      var id := nextUserId;
      nextUserId := nextUserId + 1;
      if existing.None? && id !in users {
        var row := UserRow(id, username, name, role, password);
        users := users[id := row];
        r := Some(row);
      } else {
        r := None;
      }
    }

    // -------------------------------------------------------------------------
    // families and members
    // -------------------------------------------------------------------------

    /**
     * Inserts a family together with its members (one statement, so all or
     * nothing). Absent ids come from the counters, which move even when the
     * insert then fails on a taken key.
     */
    method InsertFamily(explicitId: Option<int>, data: FamilyData, ms: seq<MemberData>) returns (id: Option<int>)
      requires Valid()
      modifies this
      ensures Valid()
      ensures nextFamilyId == old(nextFamilyId) + (if explicitId.None? then 1 else 0)
      ensures nextMemberId == old(nextMemberId) + AutoCount(ms)
      ensures var fid := explicitId.GetOr(old(nextFamilyId));
              var mids := MemberIds(ms, old(nextMemberId));
              && (id.Some? <==> old(Fits(fid, mids)))
              && (id.Some? ==> id.value == fid
                               && families == old(families)[fid := FamilyRow(fid, data)]
                               && members == old(members) + BatchRows(ms, mids, fid))
      ensures id.None? ==> families == old(families) && members == old(members)
      ensures users == old(users) && sessions == old(sessions) && nextUserId == old(nextUserId)
    {
      var fid := explicitId.GetOr(nextFamilyId);
      if explicitId.None? {
        nextFamilyId := nextFamilyId + 1;
      }
      var mids := MemberIds(ms, nextMemberId);
      nextMemberId := nextMemberId + AutoCount(ms);
      var free := AllFree(mids);
      var distinct := DistinctIds(mids);
      if fid !in families && free && distinct {
        AddFamily(fid, data, ms, mids);
        id := Some(fid);
      } else {
        id := None;
      }
    }

    /** Neither the family id nor any member id of a batch is taken, and the member ids differ. */
    ghost predicate Fits(fid: int, mids: seq<int>)
      reads this
    {
      FitsIn(families, members, fid, mids)
    }

    method AddFamily(fid: int, data: FamilyData, ms: seq<MemberData>, mids: seq<int>)
      requires Valid() && |mids| == |ms| && Fits(fid, mids)
      modifies this
      ensures Valid()
      ensures families == old(families)[fid := FamilyRow(fid, data)]
      ensures members == old(members) + BatchRows(ms, mids, fid)
      ensures users == old(users) && sessions == old(sessions)
      ensures nextUserId == old(nextUserId) && nextFamilyId == old(nextFamilyId) && nextMemberId == old(nextMemberId)
    {
      var batch := BatchRows(ms, mids, fid);
      families := families[fid := FamilyRow(fid, data)];
      assert forall id :: id in batch ==> batch[id].id == id && batch[id].familyId == fid by {
        forall id | id in batch ensures batch[id].id == id && batch[id].familyId == fid {
          var i :| 0 <= i < |mids| && mids[i] == id;
        }
      }
      members := members + batch;
    }

    /** No id of the list is a member key yet. */
    method AllFree(ids: seq<int>) returns (b: bool)
      ensures b <==> forall i :: 0 <= i < |ids| ==> ids[i] !in members
    {
      b := true;
      var i := 0;
      while i < |ids|
        invariant 0 <= i <= |ids|
        invariant b <==> forall k :: 0 <= k < i ==> ids[k] !in members
      {
        if ids[i] in members {
          b := false;
        }
        i := i + 1;
      }
    }

    /** `update({ where: { id }, data: { membershipNumber } })`; fails when no row has that id. */
    method SetMembershipNumber(id: int, number: string) returns (ok: bool)
      requires Valid()
      modifies this
      ensures Valid()
      ensures ok == (id in old(families))
      ensures families == if ok then old(families)[id := FamilyRow(id, old(families)[id].data.(membershipNumber := Some(number)))]
                          else old(families)
      ensures users == old(users) && sessions == old(sessions) && members == old(members)
      ensures nextUserId == old(nextUserId) && nextFamilyId == old(nextFamilyId) && nextMemberId == old(nextMemberId)
    {
      ok := id in families;
      if ok {
        families := families[id := FamilyRow(id, families[id].data.(membershipNumber := Some(number)))];
      }
    }

    /** `member.deleteMany()`. */
    method DeleteAllMembers()
      requires Valid()
      modifies this
      ensures Valid()
      ensures members == map[]
      ensures users == old(users) && sessions == old(sessions) && families == old(families)
      ensures nextUserId == old(nextUserId) && nextFamilyId == old(nextFamilyId) && nextMemberId == old(nextMemberId)
    {
      members := map[];
    }

    /** `family.deleteMany()`; the members' foreign key demands that no member is left. */
    method DeleteAllFamilies()
      requires Valid() && members == map[]
      modifies this
      ensures Valid()
      ensures families == map[]
      ensures users == old(users) && sessions == old(sessions) && members == old(members)
      ensures nextUserId == old(nextUserId) && nextFamilyId == old(nextFamilyId) && nextMemberId == old(nextMemberId)
    {
      families := map[];
    }

    /** The members of family `fid`, by ascending id. */
    method MembersOf(fid: int) returns (ms: seq<MemberRow>)
      requires forall id :: id in members ==> members[id].id == id
      ensures MembersOfFamily(ms, fid)
    {
      ms := MembersIn(members, fid);
    }

    /** `findUnique({ where: { id }, include: { members: true } })`. */
    method ReadFamily(id: int) returns (r: Option<FamilyRecord>)
      requires forall id :: id in members ==> members[id].id == id
      ensures r.Some? <==> id in families
      ensures r.Some? ==> r.value.family == families[id] && MembersOfFamily(r.value.members, id)
    {
      if id in families {
        var ms := MembersOf(id);
        r := Some(FamilyRecord(families[id], ms));
      } else {
        r := None;
      }
    }

    /** `findMany({ orderBy: { id: "asc" }, include: { members: true } })`. */
    method ListFamilies() returns (fs: seq<FamilyRecord>)
      requires forall id :: id in families ==> families[id].id == id
      requires forall id :: id in members ==> members[id].id == id
      ensures |fs| == |families|
      ensures forall i :: 0 <= i < |fs| ==> fs[i].family.id in families && families[fs[i].family.id] == fs[i].family
      ensures forall i, j :: 0 <= i < j < |fs| ==> fs[i].family.id < fs[j].family.id
      ensures forall id :: id in families ==> families[id] in Rows(fs)
      ensures forall i :: 0 <= i < |fs| ==> MembersOfFamily(fs[i].members, fs[i].family.id)
    {
      fs := FamiliesIn(families, members);
    }
  }

  /** The family rows of a list of records. */
  function Rows(fs: seq<FamilyRecord>): (rows: seq<FamilyRow>)
    ensures |rows| == |fs| && forall i :: 0 <= i < |fs| ==> rows[i] == fs[i].family
  {
    seq(|fs|, i requires 0 <= i < |fs| => fs[i].family)
  }

  /** `ms` lists exactly the rows of `table` that belong to family `fid`, by ascending id. */
  ghost predicate OwnedBy(table: map<int, MemberRow>, ms: seq<MemberRow>, fid: int)
  {
    && (forall k :: 0 <= k < |ms| ==> ms[k].id in table && table[ms[k].id] == ms[k] && ms[k].familyId == fid)
    && (forall id :: id in table && table[id].familyId == fid ==> table[id] in ms)
    && (forall k, l :: 0 <= k < l < |ms| ==> ms[k].id < ms[l].id)
  }

  method MembersIn(table: map<int, MemberRow>, fid: int) returns (ms: seq<MemberRow>)
    requires forall id :: id in table ==> table[id].id == id
    ensures OwnedBy(table, ms, fid)
  {
    var ids := SortedIds(table.Keys);
    assert forall k :: 0 <= k < |ids| ==> ids[k] in ids;
    ms := Collect(table, ids, fid);
    forall id | id in table && table[id].familyId == fid ensures table[id] in ms {
      assert id in ids;
      var k :| 0 <= k < |ids| && ids[k] == id;
    }
  }

  /** The rows of `ids`, in that order, that belong to family `fid`. */
  method Collect(table: map<int, MemberRow>, ids: seq<int>, fid: int) returns (ms: seq<MemberRow>)
    requires forall id :: id in table ==> table[id].id == id
    requires forall k :: 0 <= k < |ids| ==> ids[k] in table
    requires forall i, j :: 0 <= i < j < |ids| ==> ids[i] < ids[j]
    ensures forall k :: 0 <= k < |ms| ==> ms[k].id in table && table[ms[k].id] == ms[k] && ms[k].familyId == fid
    ensures forall k :: 0 <= k < |ids| && table[ids[k]].familyId == fid ==> table[ids[k]] in ms
    ensures forall k, l :: 0 <= k < l < |ms| ==> ms[k].id < ms[l].id
  {
    ms := [];
    var i := 0;
    while i < |ids|
      invariant 0 <= i <= |ids|
      invariant forall k :: 0 <= k < |ms| ==> ms[k].id in table && table[ms[k].id] == ms[k] && ms[k].familyId == fid
      invariant forall k :: 0 <= k < i && table[ids[k]].familyId == fid ==> table[ids[k]] in ms
      invariant forall k, l :: 0 <= k < l < |ms| ==> ms[k].id < ms[l].id
      invariant i == 0 ==> ms == []
      invariant i > 0 ==> forall k :: 0 <= k < |ms| ==> ms[k].id <= ids[i - 1]
    {
      var row := table[ids[i]];
      ghost var prev := ms;
      if row.familyId == fid {
        ms := ms + [row];
      }
      assert forall x :: x in prev ==> x in ms;
      i := i + 1;
    }
  }

  method FamiliesIn(families: map<int, FamilyRow>, members: map<int, MemberRow>) returns (fs: seq<FamilyRecord>)
    requires forall id :: id in families ==> families[id].id == id
    requires forall id :: id in members ==> members[id].id == id
    ensures |fs| == |families|
    ensures forall i :: 0 <= i < |fs| ==> fs[i].family.id in families && families[fs[i].family.id] == fs[i].family
    ensures forall i, j :: 0 <= i < j < |fs| ==> fs[i].family.id < fs[j].family.id
    ensures forall id :: id in families ==> families[id] in Rows(fs)
    ensures forall i :: 0 <= i < |fs| ==> OwnedBy(members, fs[i].members, fs[i].family.id)
  {
    var ids := SortedIds(families.Keys);
    forall k | 0 <= k < |ids| ensures ids[k] in families {
      assert ids[k] in ids;
    }
    fs := [];
    var i := 0;
    while i < |ids|
      invariant 0 <= i <= |ids|
      invariant |fs| == i
      invariant forall k :: 0 <= k < |ids| ==> ids[k] in families
      invariant forall k :: 0 <= k < i ==> fs[k].family == families[ids[k]] && OwnedBy(members, fs[k].members, ids[k])
    {
      var ms := MembersIn(members, ids[i]);
      fs := fs + [FamilyRecord(families[ids[i]], ms)];
      i := i + 1;
    }
    forall id | id in families ensures families[id] in Rows(fs) {
      assert id in ids;
      var k :| 0 <= k < |ids| && ids[k] == id;
      assert Rows(fs)[k] == families[id];
    }
  }

  lemma SameElements<T>(a: seq<T>, b: seq<T>)
    requires multiset(a) == multiset(b)
    ensures forall x :: x in a <==> x in b
  {
    forall x ensures x in a <==> x in b {
      assert x in a <==> x in multiset(a);
      assert x in b <==> x in multiset(b);
    }
  }

  function UsernameKey(u: UserRow): Key {
    Key(0, u.username)
  }

  lemma HasElement(s: set<int>)
    requires s != {}
    ensures exists x :: x in s
  {
    if forall x :: x !in s {
      assert false;
    }
  }

  /** The smallest element of a non-empty set. */
  method MinOf(s: set<int>) returns (m: int)
    requires s != {}
    ensures m in s && forall y :: y in s ==> m <= y
  {
    HasElement(s);
    var x :| x in s;
    m := x;
    var rest := s - {x};
    while rest != {}
      invariant rest <= s && m in s
      invariant forall y :: y in s && y !in rest ==> m <= y
      decreases |rest|
    {
      HasElement(rest);
      var y :| y in rest;
      if y < m {
        m := y;
      }
      rest := rest - {y};
    }
  }

  /** The elements of a finite set of keys in ascending order. */
  method SortedIds(s: set<int>) returns (ids: seq<int>)
    ensures |ids| == |s|
    ensures forall x :: x in ids <==> x in s
    ensures forall i, j :: 0 <= i < j < |ids| ==> ids[i] < ids[j]
  {
    ids := [];
    var rest := s;
    while rest != {}
      invariant rest <= s
      invariant forall x :: x in ids <==> x in s && x !in rest
      invariant forall i, j :: 0 <= i < j < |ids| ==> ids[i] < ids[j]
      invariant forall i, y :: 0 <= i < |ids| && y in rest ==> ids[i] < y
      invariant |ids| + |rest| == |s|
      decreases |rest|
    {
      var m := MinOf(rest);
      ids := ids + [m];
      rest := rest - {m};
    }
  }

  /** Whether the ids of a batch are pairwise different. */
  method DistinctIds(ids: seq<int>) returns (b: bool)
    ensures b <==> Distinct(ids)
  {
    var seen: set<int> := {};
    var i := 0;
    b := true;
    while i < |ids|
      invariant 0 <= i <= |ids|
      invariant seen == set k | 0 <= k < i :: ids[k]
      invariant b <==> forall k, l :: 0 <= k < l < i ==> ids[k] != ids[l]
    {
      if ids[i] in seen {
        b := false;
      }
      seen := seen + {ids[i]};
      i := i + 1;
    }
  }
}
