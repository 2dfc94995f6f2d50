/**
 * src/app/api/families/route.ts: the ordered listing and the two-phase create,
 * which inserts the family with a null membership number and then sets the
 * number to the decimal text of the id it received.
 */
module FamilyRoutes {
  import opened Wrappers
  import opened Seqs
  import opened Text
  import opened Auth
  import opened Db
  import opened Session
  import opened Http

  /** A member of a create request; absent keys are `None`. */
  datatype MemberInput = MemberInput(
    firstName: string, lastName: string, birthDate: Option<string>, role: string,
    gender: Option<string>, notes: Option<string>, email: Option<string>, phone: Option<string>)

  /** The body of a create request. */
  datatype FamilyInput = FamilyInput(
    familyName: string, address: Option<string>, phone: Option<string>, email: Option<string>,
    joinDate: Option<string>, status: Option<string>, aiSummary: Option<string>,
    members: Option<seq<MemberInput>>)

  /** The columns of the first write: absent text becomes "", an absent status "Activo". */
  function NewFamilyData(d: FamilyInput, creator: string): (fd: FamilyData)
    ensures fd.membershipNumber.None? && fd.familyName == d.familyName && fd.createdBy == Some(creator)
    ensures fd.address == (if d.address.Some? then d.address.value else "")
    ensures fd.phone == (if d.phone.Some? then d.phone.value else "")
    ensures fd.email == (if d.email.Some? then d.email.value else "")
    ensures fd.joinDate == (if d.joinDate.Some? then d.joinDate.value else "")
    ensures fd.status == (if d.status.Some? then d.status.value else "Activo")
    ensures fd.aiSummary == d.aiSummary
  {
    FamilyData(None, d.familyName, d.address.GetOr(""), d.phone.GetOr(""), d.email.GetOr(""),
               d.joinDate.GetOr(""), d.status.GetOr("Activo"), d.aiSummary, Some(creator))
  }

  /** The columns of a created member: an absent birth date becomes "". */
  function NewMemberFields(m: MemberInput): (f: MemberFields)
    ensures f.birthDate == (if m.birthDate.Some? then m.birthDate.value else "")
    ensures f.firstName == m.firstName && f.lastName == m.lastName && f.role == m.role
    ensures f.gender == m.gender && f.notes == m.notes && f.email == m.email && f.phone == m.phone
  {
    MemberFields(m.firstName, m.lastName, m.birthDate.GetOr(""), m.role, m.gender, m.notes, m.email, m.phone)
  }

  /** The members of a create request, none with an explicit id. */
  function NewMembers(ms: seq<MemberInput>): (r: seq<MemberData>)
    ensures |r| == |ms|
    ensures forall i :: 0 <= i < |ms| ==> r[i] == MemberData(None, NewMemberFields(ms[i]))
  {
    seq(|ms|, i requires 0 <= i < |ms| => MemberData(None, NewMemberFields(ms[i])))
  }

  /** Membership numbers are the ids' decimal text, so distinct ids give distinct numbers. */
  lemma MembershipNumbersDistinct(a: int, b: int)
    requires a != b
    ensures IntToString(a) != IntToString(b)
  {
    ParseShow(a);
    ParseShow(b);
  }

  /** GET /api/families: 401 without a session, otherwise every family by ascending id. */
  method GetFamilies(db: Store, header: Option<string>) returns (res: Response)
    requires db.Valid()
    ensures UserFromSession(db, header).None? ==> res == Unauthorized
    ensures UserFromSession(db, header).Some? ==>
              res.status == 200 && res.cookie.None? && res.body.FamiliesJson?
              && var fs := res.body.families;
                 && |fs| == |db.families|
                 && (forall id :: id in db.families ==> db.families[id] in Rows(fs))
                 && (forall i :: 0 <= i < |fs| ==> fs[i].family.id in db.families && db.families[fs[i].family.id] == fs[i].family)
                 && (forall i, j :: 0 <= i < j < |fs| ==> fs[i].family.id < fs[j].family.id)
                 && (forall i :: 0 <= i < |fs| ==> db.MembersOfFamily(fs[i].members, fs[i].family.id))
  {
    if UserFromSession(db, header).None? {
      return Unauthorized;
    }
    var fs := db.ListFamilies();
    res := Json(200, FamiliesJson(fs));
  }

  /** The member rows of a family created with `n` members when the member counter stood at `next`. */
  ghost predicate CreatedMembers(rows: seq<MemberRow>, inputs: seq<MemberInput>, next: int, fid: int) {
    |rows| == |inputs| && forall i :: 0 <= i < |rows| ==> rows[i] == MemberRow(next + i, fid, NewMemberFields(inputs[i]))
  }

  /** The ids `next`, `next + 1`, ... of `n` rows drawn from a counter. */
  function Consecutive(next: int, n: nat): (ids: seq<int>)
    ensures |ids| == n && forall i :: 0 <= i < n ==> ids[i] == next + i
    ensures Distinct(ids)
  {
    seq(n, i requires 0 <= i < n => next + i)
  }

  /** The member rows a create adds: the `i`-th requested member under id `next + i`, owned by `fid`. */
  function CreatedRows(inputs: seq<MemberInput>, next: int, fid: int): map<int, MemberRow>
  {
    BatchRows(NewMembers(inputs), Consecutive(next, |inputs|), fid)
  }

  /** The rows of a create are keyed by exactly the ids `next .. next + |inputs| - 1`, each holding its requested member. */
  lemma CreatedRowsSpec(inputs: seq<MemberInput>, next: int, fid: int)
    ensures forall id :: id in CreatedRows(inputs, next, fid) <==> next <= id < next + |inputs|
    ensures forall id :: id in CreatedRows(inputs, next, fid) ==>
              CreatedRows(inputs, next, fid)[id] == MemberRow(id, fid, NewMemberFields(inputs[id - next]))
  {
    var ids := Consecutive(next, |inputs|);
    forall id | next <= id < next + |inputs|
      ensures id in CreatedRows(inputs, next, fid)
    {
      assert ids[id - next] == id;
    }
  }

  /** The batch insert of a create stores exactly `CreatedRows`. */
  lemma BatchIsCreatedRows(inputs: seq<MemberInput>, next: int, fid: int)
    ensures var batch := NewMembers(inputs);
            var mids := MemberIds(batch, next);
            Distinct(mids) && BatchRows(batch, mids, fid) == CreatedRows(inputs, next, fid)
  {
    var batch := NewMembers(inputs);
    var mids, ids := MemberIds(batch, next), Consecutive(next, |inputs|);
    AutoIdsConsecutive(batch, next);
    assert |mids| == |ids|;
    assert forall i :: 0 <= i < |mids| ==> mids[i] == ids[i];
    assert mids == ids;
  }

  /** The family counter's next id and the member counter's next `n` ids are all free. */
  ghost predicate CanCreate(families: map<int, FamilyRow>, members: map<int, MemberRow>, nextFamily: int, nextMember: int, n: nat) {
    nextFamily !in families && forall id :: nextMember <= id < nextMember + n ==> id !in members
  }

  /**
   * POST /api/families. Only an admin may create. `updateFault` stands for a
   * failure of the second write, which leaves the created row with a null
   * number since the two writes share no transaction.
   */
  method PostFamily(db: Store, header: Option<string>, body: Option<FamilyInput>, updateFault: bool) returns (res: Response)
    requires db.Valid()
    modifies db
    ensures db.Valid()
    ensures db.users == old(db.users) && db.sessions == old(db.sessions) && db.nextUserId == old(db.nextUserId)
    ensures old(RequireAdmin(db, header)).None? ==> res == Unauthorized
    ensures old(RequireAdmin(db, header)).None? || body.None? ==>
              db.families == old(db.families) && db.members == old(db.members)
              && db.nextFamilyId == old(db.nextFamilyId) && db.nextMemberId == old(db.nextMemberId)
    ensures res.status == 201 || res == Unauthorized || res == Json(500, Error("Internal Server Error"))
    ensures old(RequireAdmin(db, header)).Some? ==> res.status == 201 || res == Json(500, Error("Internal Server Error"))
    ensures res.status == 201 <==>
              && old(RequireAdmin(db, header)).Some? && body.Some? && !updateFault
              && CanCreate(old(db.families), old(db.members), old(db.nextFamilyId), old(db.nextMemberId),
                           |body.value.members.GetOr([])|)
    ensures old(RequireAdmin(db, header)).Some? && body.Some? ==>
              var inputs := body.value.members.GetOr([]);
              var fid := old(db.nextFamilyId);
              var data := NewFamilyData(body.value, old(RequireAdmin(db, header)).value.username);
              && db.nextFamilyId == fid + 1 && db.nextMemberId == old(db.nextMemberId) + |inputs|
              && (!CanCreate(old(db.families), old(db.members), fid, old(db.nextMemberId), |inputs|) ==>
                    db.families == old(db.families) && db.members == old(db.members))
              && (CanCreate(old(db.families), old(db.members), fid, old(db.nextMemberId), |inputs|) ==>
                    && db.families == old(db.families)[fid := FamilyRow(fid, Numbered(data, fid, !updateFault))]
                    && db.members == old(db.members) + CreatedRows(inputs, old(db.nextMemberId), fid))
              && (res.status == 201 ==>
                    && res.body.FamilyJson? && res.body.family.family == FamilyRow(fid, Numbered(data, fid, true))
                    && CreatedMembers(res.body.family.members, inputs, old(db.nextMemberId), fid))
  {
    var admin := RequireAdmin(db, header);
    if admin.None? {
      return Unauthorized;
    }
    if body.None? {
      return Json(500, Error("Internal Server Error"));
    }
    res := Create(db, NewFamilyData(body.value, admin.value.username), body.value.members.GetOr([]), updateFault);
  }

  /** The two writes of a create and the read-back of the result. */
  method Create(db: Store, data: FamilyData, inputs: seq<MemberInput>, updateFault: bool) returns (res: Response)
    requires db.Valid()
    modifies db
    ensures db.Valid()
    ensures db.users == old(db.users) && db.sessions == old(db.sessions) && db.nextUserId == old(db.nextUserId)
    ensures db.nextFamilyId == old(db.nextFamilyId) + 1 && db.nextMemberId == old(db.nextMemberId) + |inputs|
    ensures res.status == 201 || res == Json(500, Error("Internal Server Error"))
    ensures res.status == 201 <==>
              !updateFault && CanCreate(old(db.families), old(db.members), old(db.nextFamilyId), old(db.nextMemberId), |inputs|)
    ensures !CanCreate(old(db.families), old(db.members), old(db.nextFamilyId), old(db.nextMemberId), |inputs|) ==>
              db.families == old(db.families) && db.members == old(db.members)
    ensures CanCreate(old(db.families), old(db.members), old(db.nextFamilyId), old(db.nextMemberId), |inputs|) ==>
              var fid := old(db.nextFamilyId);
              && db.families == old(db.families)[fid := FamilyRow(fid, Numbered(data, fid, !updateFault))]
              && db.members == old(db.members) + CreatedRows(inputs, old(db.nextMemberId), fid)
    ensures res.status == 201 ==>
              var fid := old(db.nextFamilyId);
              && res.body.FamilyJson? && res.body.family.family == FamilyRow(fid, Numbered(data, fid, true))
              && CreatedMembers(res.body.family.members, inputs, old(db.nextMemberId), fid)
  {
    ghost var next := db.nextMemberId;
    ghost var before := db.members;
    var fid := db.nextFamilyId;
    var created := InsertNew(db, data, inputs);
    if !created {
      return Json(500, Error("Internal Server Error"));
    }
    if updateFault {
      return Json(500, Error("Internal Server Error"));
    }
    ghost var inserted := db.families;
    var _ := db.SetMembershipNumber(fid, IntToString(fid));
    UpdateTwice(old(db.families), fid, inserted[fid], db.families[fid]);
    var record := ReadCreated(db, fid, inputs, next, before);
    res := Json(201, FamilyJson(record));
  }

  /** A created family's columns: after the second write its number is the decimal text of its id, before it null. */
  function Numbered(data: FamilyData, fid: int, updated: bool): (d: FamilyData)
    ensures d.membershipNumber == (if updated then Some(IntToString(fid)) else data.membershipNumber)
    ensures d.(membershipNumber := data.membershipNumber) == data
  {
    if updated then data.(membershipNumber := Some(IntToString(fid))) else data
  }

  /** The first write: the family with a null number, and its members with counter ids. */
  method InsertNew(db: Store, data: FamilyData, inputs: seq<MemberInput>) returns (created: bool)
    requires db.Valid()
    modifies db
    ensures db.Valid()
    ensures db.users == old(db.users) && db.sessions == old(db.sessions) && db.nextUserId == old(db.nextUserId)
    ensures db.nextFamilyId == old(db.nextFamilyId) + 1 && db.nextMemberId == old(db.nextMemberId) + |inputs|
    ensures created <==> CanCreate(old(db.families), old(db.members), old(db.nextFamilyId), old(db.nextMemberId), |inputs|)
    ensures !created ==> db.families == old(db.families) && db.members == old(db.members)
    ensures created ==>
              var fid := old(db.nextFamilyId);
              var batch := NewMembers(inputs);
              var mids := MemberIds(batch, old(db.nextMemberId));
              && db.families == old(db.families)[fid := FamilyRow(fid, data)]
              && Distinct(mids)
              && (forall i :: 0 <= i < |mids| ==> mids[i] !in old(db.members))
              && db.members == old(db.members) + BatchRows(batch, mids, fid)
              && db.members == old(db.members) + CreatedRows(inputs, old(db.nextMemberId), fid)
              && (forall id :: id in old(db.members) ==> old(db.members)[id].familyId != fid)
  {
    var batch := NewMembers(inputs);
    ghost var mids := MemberIds(batch, db.nextMemberId);
    AutoIdsConsecutive(batch, db.nextMemberId);
    CanCreateFits(db.families, db.members, db.nextFamilyId, db.nextMemberId, mids);
    BatchIsCreatedRows(inputs, db.nextMemberId, db.nextFamilyId);
    var id := db.InsertFamily(None, data, batch);
    created := id.Some?;
  }

  lemma UpdateTwice<K, V>(m: map<K, V>, k: K, a: V, b: V)
    ensures m[k := a][k := b] == m[k := b]
  {
  }

  /** Reads back a family whose members were all created by one batch. */
  method ReadCreated(db: Store, fid: int, inputs: seq<MemberInput>, ghost next: int, ghost before: map<int, MemberRow>) returns (record: FamilyRecord)
    requires db.Valid() && fid in db.families
    requires forall id :: id in before ==> before[id].familyId != fid
    requires var batch := NewMembers(inputs);
             var mids := MemberIds(batch, next);
             Distinct(mids) && db.members == before + BatchRows(batch, mids, fid)
    ensures record.family == db.families[fid]
    ensures CreatedMembers(record.members, inputs, next, fid)
  {
    var batch := NewMembers(inputs);
    AutoIdsConsecutive(batch, next);
    var r := db.ReadFamily(fid);
    record := r.value;
    CreatedInOrder(before, batch, MemberIds(batch, next), fid, record.members, next);
  }

  /** With consecutive ids from the counter, "the batch fits" is "the id range is free". */
  lemma CanCreateFits(families: map<int, FamilyRow>, members: map<int, MemberRow>, nextFamily: int, next: int, mids: seq<int>)
    requires forall i :: 0 <= i < |mids| ==> mids[i] == next + i
    ensures Distinct(mids)
    ensures CanCreate(families, members, nextFamily, next, |mids|) <==> FitsIn(families, members, nextFamily, mids)
  {
    if FitsIn(families, members, nextFamily, mids) {
      forall id | next <= id < next + |mids| ensures id !in members {
        assert mids[id - next] == id;
      }
    }
  }

  /**
   * Read back by ascending id, the members of a family created with
   * consecutive fresh ids are exactly the batch, in request order.
   */
  lemma CreatedInOrder(before: map<int, MemberRow>, batch: seq<MemberData>, mids: seq<int>, fid: int, rs: seq<MemberRow>, next: int)
    requires forall id :: id in before ==> before[id].familyId != fid
    requires |mids| == |batch| && forall i :: 0 <= i < |mids| ==> mids[i] == next + i
    requires Distinct(mids)
    requires OwnedBy(before + BatchRows(batch, mids, fid), rs, fid)
    ensures |rs| == |batch| && forall i :: 0 <= i < |rs| ==> rs[i] == MemberRow(next + i, fid, batch[i].fields)
  {
    var table := before + BatchRows(batch, mids, fid);
    var ids := IdsOf(rs);
    OwnedIdsInRange(before, batch, mids, fid, rs, next);
    OwnedIdsCoverRange(before, batch, mids, fid, rs, next);
    IncreasingCover(ids, next, |batch|);
    forall i | 0 <= i < |rs| ensures rs[i] == MemberRow(next + i, fid, batch[i].fields) {
      assert rs[i].id == ids[i] == mids[i];
    }
  }

  function IdsOf(rs: seq<MemberRow>): (ids: seq<int>)
    ensures |ids| == |rs| && forall k :: 0 <= k < |rs| ==> ids[k] == rs[k].id
  {
    seq(|rs|, k requires 0 <= k < |rs| => rs[k].id)
  }

  lemma OwnedIdsInRange(before: map<int, MemberRow>, batch: seq<MemberData>, mids: seq<int>, fid: int, rs: seq<MemberRow>, next: int)
    requires forall id :: id in before ==> before[id].familyId != fid
    requires |mids| == |batch| && forall i :: 0 <= i < |mids| ==> mids[i] == next + i
    requires Distinct(mids)
    requires OwnedBy(before + BatchRows(batch, mids, fid), rs, fid)
    ensures forall k :: 0 <= k < |rs| ==> next <= rs[k].id < next + |batch|
  {
    var batchRows := BatchRows(batch, mids, fid);
    var table := before + batchRows;
    forall k | 0 <= k < |rs| ensures next <= rs[k].id < next + |batch| {
      var id := rs[k].id;
      if id in batchRows {
        assert batchRows.Keys == set i | 0 <= i < |mids| :: mids[i];
        var i :| 0 <= i < |mids| && mids[i] == id;
      } else {
        assert false;
      }
    }
  }

  lemma OwnedIdsCoverRange(before: map<int, MemberRow>, batch: seq<MemberData>, mids: seq<int>, fid: int, rs: seq<MemberRow>, next: int)
    requires |mids| == |batch| && forall i :: 0 <= i < |mids| ==> mids[i] == next + i
    requires Distinct(mids)
    requires OwnedBy(before + BatchRows(batch, mids, fid), rs, fid)
    ensures forall x :: next <= x < next + |batch| ==> x in IdsOf(rs)
  {
    var batchRows := BatchRows(batch, mids, fid);
    var table := before + batchRows;
    forall x | next <= x < next + |batch| ensures x in IdsOf(rs) {
      assert mids[x - next] == x;
      assert x in batchRows;
      assert table[x] == batchRows[x];
      var k := IndexOf(rs, table[x]);
      assert IdsOf(rs)[k] == x;
    }
  }

  /** An increasing list of ints that covers exactly `[a, a + n)` is that range in order. */
  lemma {:induction false} IncreasingCover(ids: seq<int>, a: int, n: nat)
    requires forall i, j :: 0 <= i < j < |ids| ==> ids[i] < ids[j]
    requires forall k :: 0 <= k < |ids| ==> a <= ids[k] < a + n
    requires forall x :: a <= x < a + n ==> x in ids
    ensures |ids| == n && forall k :: 0 <= k < |ids| ==> ids[k] == a + k
    decreases n
  {
    if ids != [] {
      assert a <= ids[0] < a + n;
    }
    if n == 0 {
      if ids != [] {
        assert false;
      }
    } else {
      var last := |ids| - 1;
      var top := IndexOf(ids, a + n - 1);
      assert ids[top] <= ids[last];
      var prefix := ids[..last];
      forall x | a <= x < a + n - 1 ensures x in prefix {
        var k := IndexOf(ids, x);
        assert k != last;
        assert prefix[k] == x;
      }
      IncreasingCover(prefix, a, n - 1);
    }
  }
}
