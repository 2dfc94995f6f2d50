/**
 * src/app/api/import/csv/route.ts: the admin-only, destructive replace of all
 * families and members by a submitted list. Members go first, then families,
 * then each family is inserted with its members, one statement at a time and
 * without a transaction: the first failing insert ends the import.
 */
module ImportRoute {
  import opened Wrappers
  import opened Seqs
  import opened Types
  import opened Db
  import opened Session
  import opened Http

  /** The stored columns of a submitted family; audit fields absent stay null. */
  function ImportData(f: Family): (d: FamilyData)
    ensures d.membershipNumber == Some(f.membershipNumber) && d.familyName == f.familyName
    ensures d.address == f.address && d.phone == f.phone && d.email == f.email
    ensures d.joinDate == f.joinDate && d.status == f.status
    ensures d.aiSummary == f.aiSummary && d.createdBy == f.createdBy
  {
    FamilyData(Some(f.membershipNumber), f.familyName, f.address, f.phone, f.email, f.joinDate,
               f.status, f.aiSummary, f.createdBy)
  }

  /** The stored columns of a submitted member. */
  function ImportFields(m: Member): (r: MemberFields)
    ensures r.firstName == m.firstName && r.lastName == m.lastName && r.birthDate == m.birthDate
    ensures r.role == m.role && r.gender == m.gender && r.notes == m.notes
    ensures r.email == m.email && r.phone == m.phone
  {
    MemberFields(m.firstName, m.lastName, m.birthDate, m.role, m.gender, m.notes, m.email, m.phone)
  }

  /** A family's members as an insert batch that keeps their ids. */
  function ImportBatch(ms: seq<Member>): (r: seq<MemberData>)
    ensures |r| == |ms|
    ensures forall a :: 0 <= a < |ms| ==> r[a] == MemberData(ms[a].id, ImportFields(ms[a]))
  {
    seq(|ms|, a requires 0 <= a < |ms| => MemberData(ms[a].id, ImportFields(ms[a])))
  }

  /** A submitted family with an id is stored under it, with every member that has an id. */
  ghost predicate Stored(families: map<int, FamilyRow>, members: map<int, MemberRow>, f: Family)
    requires f.id.Some?
  {
    var fid := f.id.value;
    && fid in families && families[fid] == FamilyRow(fid, ImportData(f))
    && forall a :: 0 <= a < |f.members| && f.members[a].id.Some? ==>
         f.members[a].id.value in members
         && members[f.members[a].id.value] == MemberRow(f.members[a].id.value, fid, ImportFields(f.members[a]))
  }

  /** Every entry of `m1` is still in `m2`, unchanged. */
  ghost predicate Extends<V>(m1: map<int, V>, m2: map<int, V>) {
    forall k :: k in m1 ==> k in m2 && m2[k] == m1[k]
  }

  lemma StoredExtends(f1: map<int, FamilyRow>, m1: map<int, MemberRow>, f2: map<int, FamilyRow>, m2: map<int, MemberRow>, f: Family)
    requires f.id.Some? && Stored(f1, m1, f) && Extends(f1, f2) && Extends(m1, m2)
    ensures Stored(f2, m2, f)
  {
  }

  /** Every family and every member of the list carries its own id, and no id repeats. */
  ghost predicate ExplicitIds(fs: seq<Family>) {
    && (forall j :: 0 <= j < |fs| ==> fs[j].id.Some?)
    && (forall j, a :: 0 <= j < |fs| && 0 <= a < |fs[j].members| ==> fs[j].members[a].id.Some?)
    && (forall j, k :: 0 <= j < k < |fs| ==> fs[j].id != fs[k].id)
    && (forall j, a, k, b |
          0 <= j < |fs| && 0 <= a < |fs[j].members| && 0 <= k < |fs| && 0 <= b < |fs[k].members| && (j != k || a != b) ::
          fs[j].members[a].id != fs[k].members[b].id)
  }

  /** The family ids of the first `i` families of a list with explicit ids. */
  ghost function FamilyKeys(fs: seq<Family>, i: int): set<int>
    requires 0 <= i <= |fs| && ExplicitIds(fs)
  {
    set j | 0 <= j < i :: fs[j].id.value
  }

  /** The member ids of the first `i` families of a list with explicit ids. */
  ghost function MemberKeys(fs: seq<Family>, i: int): set<int>
    requires 0 <= i <= |fs| && ExplicitIds(fs)
  {
    set j, a | 0 <= j < i && 0 <= a < |fs[j].members| :: fs[j].members[a].id.value
  }

  /** The two tables the import writes and the two counters their id-less inserts draw from. */
  datatype Tables = Tables(families: map<int, FamilyRow>, members: map<int, MemberRow>, nextFamily: int, nextMember: int)

  /**
   * One `family.create` of the import, from tables `t`: the tables after it and
   * whether it succeeded. It fails exactly when the family's id or one of its
   * members' ids is taken or the member ids repeat; the counters advance either way.
   */
  ghost function InsertStep(t: Tables, f: Family): (Tables, bool)
  {
    var batch := ImportBatch(f.members);
    var fid := f.id.GetOr(t.nextFamily);
    var mids := MemberIds(batch, t.nextMember);
    var nextFamily := t.nextFamily + (if f.id.None? then 1 else 0);
    var nextMember := t.nextMember + AutoCount(batch);
    if FitsIn(t.families, t.members, fid, mids) then
      (Tables(t.families[fid := FamilyRow(fid, ImportData(f))], t.members + BatchRows(batch, mids, fid), nextFamily, nextMember), true)
    else
      (Tables(t.families, t.members, nextFamily, nextMember), false)
  }

  /**
   * `trace` lists the states a run of the partial step `step` over `xs` passes
   * through from `s0`: entry `k + 1` is what step `k` left, and every step it
   * lists succeeded.
   */
  ghost predicate Trace<S, X>(step: (S, X) -> (S, bool), s0: S, xs: seq<X>, trace: seq<S>) {
    && 1 <= |trace| <= |xs| + 1
    && trace[0] == s0
    && forall k :: 0 <= k < |trace| - 1 ==> Succeeds(step, xs, trace, k)
  }

  /** Step `k` succeeded and took entry `k` of the trace to entry `k + 1`. */
  ghost predicate Succeeds<S, X>(step: (S, X) -> (S, bool), xs: seq<X>, trace: seq<S>, k: int)
    requires 0 <= k < |trace| - 1 && k < |xs|
  {
    step(trace[k], xs[k]) == (trace[k + 1], true)
  }

  /**
   * How a run whose successful steps are `trace` ended in the state `s` with
   * `res`: 200 after the last element, or 500 at the first step that failed,
   * whose own result `s` is.
   */
  ghost predicate Ended<S, X>(step: (S, X) -> (S, bool), xs: seq<X>, trace: seq<S>, s: S, res: Response) {
    && 1 <= |trace| <= |xs| + 1
    && (res == Json(200, Ok) || res == Json(500, Error("Import failed")))
    && (res.status == 200 ==> |trace| == |xs| + 1 && s == trace[|xs|])
    && (res.status == 500 ==> |trace| <= |xs| && step(trace[|trace| - 1], xs[|trace| - 1]) == (s, false))
  }

  /** A store insert with the effect `InsertFamily` states is the import's `InsertStep`. */
  lemma StepMatches(t0: Tables, f: Family, t1: Tables, ok: bool)
    requires var batch := ImportBatch(f.members);
             var fid := f.id.GetOr(t0.nextFamily);
             var mids := MemberIds(batch, t0.nextMember);
             && t1.nextFamily == t0.nextFamily + (if f.id.None? then 1 else 0)
             && t1.nextMember == t0.nextMember + AutoCount(batch)
             && (ok <==> FitsIn(t0.families, t0.members, fid, mids))
             && (ok ==> t1.families == t0.families[fid := FamilyRow(fid, ImportData(f))]
                        && t1.members == t0.members + BatchRows(batch, mids, fid))
             && (!ok ==> t1.families == t0.families && t1.members == t0.members)
    ensures (t1, ok) == InsertStep(t0, f)
  {
    var batch := ImportBatch(f.members);
    var fid := f.id.GetOr(t0.nextFamily);
    var mids := MemberIds(batch, t0.nextMember);
    var r := InsertStep(t0, f);
    assert r.1 == ok;
    assert r.0.families == t1.families && r.0.members == t1.members;
  }

  /**
   * The request body as `req.json()` leaves it: text that is not JSON, JSON
   * that is not a list (`{}`, `null`, a number), or the submitted list.
   */
  datatype ImportBody = NotJson | NotList | Submitted(families: seq<Family>)

  /**
   * POST /api/import/csv. Text that is not JSON fails before the wipe; JSON
   * that is not a list fails at the loop, after both tables were emptied.
   */
  method ImportFamilies(db: Store, header: Option<string>, body: ImportBody) returns (res: Response, ghost trace: seq<Tables>)
    requires db.Valid()
    modifies db
    ensures db.Valid()
    ensures db.users == old(db.users) && db.sessions == old(db.sessions) && db.nextUserId == old(db.nextUserId)
    ensures old(RequireAdmin(db, header)).None? ==>
              res == Unauthorized && db.families == old(db.families) && db.members == old(db.members)
    ensures old(RequireAdmin(db, header)).Some? && body.NotJson? ==>
              res == Json(500, Error("Import failed")) && db.families == old(db.families) && db.members == old(db.members)
    ensures old(RequireAdmin(db, header)).Some? && body.NotList? ==>
              res == Json(500, Error("Import failed")) && db.families == map[] && db.members == map[]
    ensures res == Unauthorized || res == Json(200, Ok) || res == Json(500, Error("Import failed"))
    ensures old(RequireAdmin(db, header)).Some? ==> res != Unauthorized
    ensures old(RequireAdmin(db, header)).Some? && body.Submitted? ==> Replaced(db, body.families, res)
    ensures old(RequireAdmin(db, header)).Some? && body.Submitted? ==>
              && Trace(InsertStep, Tables(map[], map[], old(db.nextFamilyId), old(db.nextMemberId)), body.families, trace)
              && Ended(InsertStep, body.families, trace, Tables(db.families, db.members, db.nextFamilyId, db.nextMemberId), res)
    ensures old(RequireAdmin(db, header)).None? || !body.Submitted? ==>
              db.nextFamilyId == old(db.nextFamilyId) && db.nextMemberId == old(db.nextMemberId)
  {
    if RequireAdmin(db, header).None? {
      return Unauthorized, [];
    }
    match body
    case NotJson =>
      return Json(500, Error("Import failed")), [];
    case NotList =>
      db.DeleteAllMembers();
      db.DeleteAllFamilies();
      return Json(500, Error("Import failed")), [];
    case Submitted(fs) =>
      res, trace := Replace(db, fs);
  }

  /** What the tables hold once an import of `fs` has answered `res`. */
  ghost predicate Replaced(db: Store, fs: seq<Family>, res: Response)
    reads db
  {
    ReplacedIn(db.families, db.members, fs, res)
  }

  ghost predicate ReplacedIn(families: map<int, FamilyRow>, members: map<int, MemberRow>, fs: seq<Family>, res: Response) {
    && (res.status == 200 ==> |families| == |fs|)
    && (res.status == 500 ==> |families| < |fs|)
    && (forall j :: 0 <= j < |fs| && j < |families| && fs[j].id.Some? ==> Stored(families, members, fs[j]))
    && (forall id :: id in families ==> families[id].data in DataOf(fs))
    && (fs == [] ==> res == Json(200, Ok) && families == map[] && members == map[])
    && (ExplicitIds(fs) ==> res == Json(200, Ok)
                            && families.Keys == FamilyKeys(fs, |fs|)
                            && members.Keys == MemberKeys(fs, |fs|))
  }

  /** The tables after families `0..i-1` of `fs` have been inserted into empty ones. */
  ghost predicate Progress(families: map<int, FamilyRow>, members: map<int, MemberRow>, fs: seq<Family>, i: int) {
    && 0 <= i <= |fs|
    && |families| == i
    && (forall j :: 0 <= j < i && fs[j].id.Some? ==> Stored(families, members, fs[j]))
    && (forall id :: id in families ==> families[id].data in DataOf(fs[..i]))
    && (ExplicitIds(fs) ==> families.Keys == FamilyKeys(fs, i) && members.Keys == MemberKeys(fs, i))
    && (i == 0 ==> families == map[] && members == map[])
  }

  lemma Finished(families: map<int, FamilyRow>, members: map<int, MemberRow>, fs: seq<Family>)
    requires Progress(families, members, fs, |fs|)
    ensures ReplacedIn(families, members, fs, Json(200, Ok))
  {
  }

  lemma Stopped(families: map<int, FamilyRow>, members: map<int, MemberRow>, fs: seq<Family>, i: int)
    requires Progress(families, members, fs, i) && i < |fs| && !ExplicitIds(fs)
    ensures ReplacedIn(families, members, fs, Json(500, Error("Import failed")))
  {
  }

  /** Empties both tables, members first, then inserts the families in order until one fails. */
  method Replace(db: Store, fs: seq<Family>) returns (res: Response, ghost trace: seq<Tables>)
    requires db.Valid()
    modifies db
    ensures db.Valid()
    ensures db.users == old(db.users) && db.sessions == old(db.sessions) && db.nextUserId == old(db.nextUserId)
    ensures res == Json(200, Ok) || res == Json(500, Error("Import failed"))
    ensures Replaced(db, fs, res)
    ensures Trace(InsertStep, Tables(map[], map[], old(db.nextFamilyId), old(db.nextMemberId)), fs, trace)
    ensures Ended(InsertStep, fs, trace, Tables(db.families, db.members, db.nextFamilyId, db.nextMemberId), res)
  {
    db.DeleteAllMembers();
    db.DeleteAllFamilies();
    res, trace := InsertAll(db, fs);
  }

  /** Inserts the families of the list into the emptied tables, in order, until one fails. */
  method InsertAll(db: Store, fs: seq<Family>) returns (res: Response, ghost trace: seq<Tables>)
    requires db.Valid() && db.families == map[] && db.members == map[]
    modifies db
    ensures db.Valid()
    ensures db.users == old(db.users) && db.sessions == old(db.sessions) && db.nextUserId == old(db.nextUserId)
    ensures ReplacedIn(db.families, db.members, fs, res)
    ensures Trace(InsertStep, Tables(map[], map[], old(db.nextFamilyId), old(db.nextMemberId)), fs, trace)
    ensures Ended(InsertStep, fs, trace, Tables(db.families, db.members, db.nextFamilyId, db.nextMemberId), res)
  {
    ghost var t0 := Tables(db.families, db.members, db.nextFamilyId, db.nextMemberId);
    trace := [t0];
    for i := 0 to |fs|
      invariant db.Valid()
      invariant db.users == old(db.users) && db.sessions == old(db.sessions) && db.nextUserId == old(db.nextUserId)
      // compared with `true` so that it is checked as one fact rather than conjunct by conjunct
      invariant Importing(t0, fs, trace, Tables(db.families, db.members, db.nextFamilyId, db.nextMemberId), i) == true
    {
      var ok := InsertNext(db, fs, i, t0, trace);
      if !ok {
        return Json(500, Error("Import failed")), trace;
      }
      trace := trace + [Tables(db.families, db.members, db.nextFamilyId, db.nextMemberId)];
    }
    res := Json(200, Ok);
    Finished(db.families, db.members, fs);
  }

  /** The loop's state after families `0..i-1` were inserted: their progress and the trace of those inserts. */
  ghost predicate Importing(t0: Tables, fs: seq<Family>, trace: seq<Tables>, t: Tables, i: int) {
    && Progress(t.families, t.members, fs, i)
    && |trace| == i + 1 && Trace(InsertStep, t0, fs, trace) && trace[i] == t
  }

  /** A successful step extends a trace by the state it left. */
  lemma TraceSnoc<S, X>(step: (S, X) -> (S, bool), s0: S, xs: seq<X>, trace: seq<S>, s: S)
    requires Trace(step, s0, xs, trace) && |trace| <= |xs|
    requires step(trace[|trace| - 1], xs[|trace| - 1]) == (s, true)
    ensures Trace(step, s0, xs, trace + [s])
  {
    var next := trace + [s];
    forall k | 0 <= k < |next| - 1
      ensures Succeeds(step, xs, next, k)
    {
      if k < |trace| - 1 {
        assert Succeeds(step, xs, trace, k);
        assert next[k] == trace[k] && next[k + 1] == trace[k + 1];
      }
    }
  }

  /**
   * Two traces of the same run from the same state agree at every entry both
   * have, and where the second goes on, the first's entry stepped successfully.
   */
  lemma {:induction false} TraceAgree<S, X>(step: (S, X) -> (S, bool), s0: S, xs: seq<X>, a: seq<S>, b: seq<S>, n: nat)
    requires Trace(step, s0, xs, a) && Trace(step, s0, xs, b) && n < |a| && n < |b|
    ensures a[n] == b[n]
    ensures n + 1 < |b| ==> step(a[n], xs[n]).1
  {
    if n > 0 {
      TraceAgree(step, s0, xs, a, b, n - 1);
      assert Succeeds(step, xs, a, n - 1) && Succeeds(step, xs, b, n - 1);
    }
    if n + 1 < |b| {
      assert Succeeds(step, xs, b, n);
    }
  }

  /** A run that ended after the steps of `a` has no trace with more steps. */
  lemma NoLongerTrace<S, X>(step: (S, X) -> (S, bool), s0: S, xs: seq<X>, a: seq<S>, s: S, res: Response, b: seq<S>)
    requires Trace(step, s0, xs, a) && Ended(step, xs, a, s, res) && Trace(step, s0, xs, b)
    ensures |b| <= |a|
  {
    if |a| < |b| && res.status == 500 {
      TraceAgree(step, s0, xs, a, b, |a| - 1);
    }
  }

  /**
   * A run is deterministic: from the same state, any two ways of ending a run
   * over `xs` pass through the same states and reach the same state and the
   * same answer. With `InsertStep` this makes the import's final tables and
   * answer a function of the submitted list and the counters.
   */
  lemma EndedUnique<S, X>(step: (S, X) -> (S, bool), s0: S, xs: seq<X>, a: seq<S>, sa: S, ra: Response,
                          b: seq<S>, sb: S, rb: Response)
    requires Trace(step, s0, xs, a) && Ended(step, xs, a, sa, ra)
    requires Trace(step, s0, xs, b) && Ended(step, xs, b, sb, rb)
    ensures a == b && sa == sb && ra == rb
  {
    NoLongerTrace(step, s0, xs, a, sa, ra, b);
    NoLongerTrace(step, s0, xs, b, sb, rb, a);
    forall n | 0 <= n < |a|
      ensures a[n] == b[n]
    {
      TraceAgree(step, s0, xs, a, b, n);
    }
  }

  /**
   * Inserts family `i` of the list: it succeeds exactly when the family's id and
   * its members' ids are free and distinct, with the effect of `InsertStep`; a
   * success carries the import's progress to `i + 1`, a failure leaves the rows.
   */
  method InsertOne(db: Store, fs: seq<Family>, i: nat) returns (ok: bool)
    requires db.Valid() && i < |fs| && Progress(db.families, db.members, fs, i)
    modifies db
    ensures db.Valid()
    ensures db.users == old(db.users) && db.sessions == old(db.sessions) && db.nextUserId == old(db.nextUserId)
    ensures ok <==> FitsIn(old(db.families), old(db.members), fs[i].id.GetOr(old(db.nextFamilyId)),
                           MemberIds(ImportBatch(fs[i].members), old(db.nextMemberId)))
    ensures (Tables(db.families, db.members, db.nextFamilyId, db.nextMemberId), ok)
            == InsertStep(Tables(old(db.families), old(db.members), old(db.nextFamilyId), old(db.nextMemberId)), fs[i])
    ensures ExplicitIds(fs) ==> ok
    ensures ok ==> Progress(db.families, db.members, fs, i + 1)
    ensures !ok ==> db.families == old(db.families) && db.members == old(db.members)
  {
    var f := fs[i];
    ghost var before := Tables(db.families, db.members, db.nextFamilyId, db.nextMemberId);
    var id := db.InsertFamily(f.id, ImportData(f), ImportBatch(f.members));
    ok := id.Some?;
    ghost var after := Tables(db.families, db.members, db.nextFamilyId, db.nextMemberId);
    StepMatches(before, f, after, ok);
    OneInsert(before, fs, i, after, ok);
  }

  /** One turn of the import loop: inserts family `i` and either extends the trace or ends the import with 500. */
  method InsertNext(db: Store, fs: seq<Family>, i: nat, ghost t0: Tables, ghost trace: seq<Tables>) returns (ok: bool)
    requires db.Valid() && i < |fs|
    // compared with `true` so that callers establish it as one fact
    requires Importing(t0, fs, trace, Tables(db.families, db.members, db.nextFamilyId, db.nextMemberId), i) == true
    modifies db
    ensures db.Valid()
    ensures db.users == old(db.users) && db.sessions == old(db.sessions) && db.nextUserId == old(db.nextUserId)
    ensures ok ==> var t := Tables(db.families, db.members, db.nextFamilyId, db.nextMemberId);
                   Importing(t0, fs, trace + [t], t, i + 1)
    ensures !ok ==> var res := Json(500, Error("Import failed"));
                    && ReplacedIn(db.families, db.members, fs, res)
                    && Ended(InsertStep, fs, trace, Tables(db.families, db.members, db.nextFamilyId, db.nextMemberId), res)
  {
    ok := InsertOne(db, fs, i);
    ghost var after := Tables(db.families, db.members, db.nextFamilyId, db.nextMemberId);
    if ok {
      TraceSnoc(InsertStep, t0, fs, trace, after);
    } else {
      Stopped(db.families, db.members, fs, i);
    }
  }

  /** What one insert of the import promises, given that it has the effect of `InsertStep`. */
  lemma OneInsert(t0: Tables, fs: seq<Family>, i: nat, t1: Tables, ok: bool)
    requires i < |fs| && Progress(t0.families, t0.members, fs, i)
    requires (t1, ok) == InsertStep(t0, fs[i])
    ensures ExplicitIds(fs) ==> ok
    ensures ok ==> Progress(t1.families, t1.members, fs, i + 1)
    ensures !ok ==> t1.families == t0.families && t1.members == t0.members
  {
    StepProgress(t0, fs, i);
  }

  /** One insert carries the progress from `i` to `i + 1`, and with explicit distinct ids it never fails. */
  lemma StepProgress(t: Tables, fs: seq<Family>, i: nat)
    requires i < |fs| && Progress(t.families, t.members, fs, i)
    ensures var step := InsertStep(t, fs[i]);
            && (ExplicitIds(fs) ==> step.1)
            && (step.1 ==> Progress(step.0.families, step.0.members, fs, i + 1))
            && (!step.1 ==> step.0.families == t.families && step.0.members == t.members)
  {
    var f := fs[i];
    var batch := ImportBatch(f.members);
    var fid := f.id.GetOr(t.nextFamily);
    var mids := MemberIds(batch, t.nextMember);
    if ExplicitIds(fs) {
      ExplicitFits(fs, i, t.families, t.members, mids);
    }
    if FitsIn(t.families, t.members, fid, mids) {
      Advance(fs, i, batch, mids, fid, t.families, t.members,
              t.families[fid := FamilyRow(fid, ImportData(f))], t.members + BatchRows(batch, mids, fid));
    }
  }


  /** The stored columns of each family of a list, in order. */
  function DataOf(fs: seq<Family>): (ds: seq<FamilyData>)
    ensures |ds| == |fs| && forall j :: 0 <= j < |fs| ==> ds[j] == ImportData(fs[j])
  {
    seq(|fs|, j requires 0 <= j < |fs| => ImportData(fs[j]))
  }

  /** One more stored family carries the import's progress from `i` to `i + 1`. */
  lemma Advance(fs: seq<Family>, i: int, batch: seq<MemberData>, mids: seq<int>, fid: int,
                fam0: map<int, FamilyRow>, mem0: map<int, MemberRow>,
                fam1: map<int, FamilyRow>, mem1: map<int, MemberRow>)
    requires 0 <= i < |fs| && Progress(fam0, mem0, fs, i)
    requires batch == ImportBatch(fs[i].members)
    requires |mids| == |batch| && forall a :: 0 <= a < |batch| && batch[a].id.Some? ==> mids[a] == batch[a].id.value
    requires fs[i].id.Some? ==> fid == fs[i].id.value
    requires FitsIn(fam0, mem0, fid, mids)
    requires fam1 == fam0[fid := FamilyRow(fid, ImportData(fs[i]))]
    requires mem1 == mem0 + BatchRows(batch, mids, fid)
    ensures Progress(fam1, mem1, fs, i + 1)
  {
    var batchRows := BatchRows(batch, mids, fid);
    MembersExtend(mem0, batchRows, mids);
    StoredGrows(fs, i, batch, mids, fid, fam0, mem0, fam1, mem1);
    DataGrows(fs, i, fam0, fam1, fid);
    if ExplicitIds(fs) {
      ExplicitKeysGrow(fs, i, batch, mids, fid, fam0, mem0, fam1, mem1);
    }
  }

  /** Adding rows under fresh keys keeps every old row. */
  lemma MembersExtend(mem0: map<int, MemberRow>, rows: map<int, MemberRow>, mids: seq<int>)
    requires rows.Keys == set a | 0 <= a < |mids| :: mids[a]
    requires forall a :: 0 <= a < |mids| ==> mids[a] !in mem0
    ensures Extends(mem0, mem0 + rows)
  {
    forall k | k in mem0 ensures k !in rows {
      if k in rows {
        var a := IndexOf(mids, k);
        assert false;
      }
    }
  }

  /** Families `0..i` with ids are stored once family `i` is. */
  lemma StoredGrows(fs: seq<Family>, i: int, batch: seq<MemberData>, mids: seq<int>, fid: int,
                    fam0: map<int, FamilyRow>, mem0: map<int, MemberRow>,
                    fam1: map<int, FamilyRow>, mem1: map<int, MemberRow>)
    requires 0 <= i < |fs|
    requires forall j :: 0 <= j < i && fs[j].id.Some? ==> Stored(fam0, mem0, fs[j])
    requires batch == ImportBatch(fs[i].members)
    requires |mids| == |batch| && Distinct(mids)
    requires forall a :: 0 <= a < |batch| && batch[a].id.Some? ==> mids[a] == batch[a].id.value
    requires fs[i].id.Some? ==> fid == fs[i].id.value
    requires fid !in fam0 && fam1 == fam0[fid := FamilyRow(fid, ImportData(fs[i]))]
    requires mem1 == mem0 + BatchRows(batch, mids, fid) && Extends(mem0, mem1)
    ensures forall j :: 0 <= j < i + 1 && fs[j].id.Some? ==> Stored(fam1, mem1, fs[j])
  {
    assert Extends(fam0, fam1);
    forall j | 0 <= j < i + 1 && fs[j].id.Some? ensures Stored(fam1, mem1, fs[j]) {
      if j < i {
        StoredExtends(fam0, mem0, fam1, mem1, fs[j]);
      } else {
        NewlyStored(fs[i], batch, mids, fid, mem1, mem0);
      }
    }
  }

  lemma DataGrows(fs: seq<Family>, i: int, fam0: map<int, FamilyRow>, fam1: map<int, FamilyRow>, fid: int)
    requires 0 <= i < |fs|
    requires forall id :: id in fam0 ==> fam0[id].data in DataOf(fs[..i])
    requires fam1 == fam0[fid := FamilyRow(fid, ImportData(fs[i]))]
    ensures forall id :: id in fam1 ==> fam1[id].data in DataOf(fs[..i + 1])
  {
    var before, after := DataOf(fs[..i]), DataOf(fs[..i + 1]);
    assert after == before + [ImportData(fs[i])];
  }

  /** The members of a just-stored family are its batch rows. */
  lemma NewlyStored(f: Family, batch: seq<MemberData>, mids: seq<int>, fid: int, members: map<int, MemberRow>, before: map<int, MemberRow>)
    requires f.id.Some? && fid == f.id.value
    requires batch == ImportBatch(f.members) && |mids| == |batch| && Distinct(mids)
    requires forall a :: 0 <= a < |batch| && batch[a].id.Some? ==> mids[a] == batch[a].id.value
    requires members == before + BatchRows(batch, mids, fid)
    ensures forall a :: 0 <= a < |f.members| && f.members[a].id.Some? ==>
              f.members[a].id.value in members
              && members[f.members[a].id.value] == MemberRow(f.members[a].id.value, fid, ImportFields(f.members[a]))
  {
  }

  /** With explicit, pairwise different ids, family `i` always fits in what families `0..i-1` left. */
  lemma ExplicitFits(fs: seq<Family>, i: int, families: map<int, FamilyRow>, members: map<int, MemberRow>, mids: seq<int>)
    requires ExplicitIds(fs) && 0 <= i < |fs|
    requires families.Keys == FamilyKeys(fs, i) && members.Keys == MemberKeys(fs, i)
    requires |mids| == |fs[i].members|
    requires forall a :: 0 <= a < |mids| ==> mids[a] == fs[i].members[a].id.value
    ensures FitsIn(families, members, fs[i].id.value, mids)
  {
    forall k | k in members ensures forall a :: 0 <= a < |mids| ==> mids[a] != k {
      var j, b :| 0 <= j < i && 0 <= b < |fs[j].members| && k == fs[j].members[b].id.value;
    }
  }

  /** After family `i` is stored, the key sets cover families `0..i`. */
  lemma ExplicitKeysGrow(fs: seq<Family>, i: int, batch: seq<MemberData>, mids: seq<int>, fid: int,
                         fam0: map<int, FamilyRow>, mem0: map<int, MemberRow>,
                         fam1: map<int, FamilyRow>, mem1: map<int, MemberRow>)
    requires ExplicitIds(fs) && 0 <= i < |fs|
    requires fam0.Keys == FamilyKeys(fs, i) && mem0.Keys == MemberKeys(fs, i)
    requires batch == ImportBatch(fs[i].members)
    requires |mids| == |batch| && Distinct(mids)
    requires forall a :: 0 <= a < |batch| && batch[a].id.Some? ==> mids[a] == batch[a].id.value
    requires fs[i].id.Some? ==> fid == fs[i].id.value
    requires fam1 == fam0[fid := FamilyRow(fid, ImportData(fs[i]))]
    requires mem1 == mem0 + BatchRows(batch, mids, fid)
    ensures fam1.Keys == FamilyKeys(fs, i + 1) && mem1.Keys == MemberKeys(fs, i + 1)
  {
    FamilyKeysGrow(fs, i);
    MemberKeysGrow(fs, i);
    assert forall a :: 0 <= a < |mids| ==> mids[a] == fs[i].members[a].id.value;
    BatchKeys(mids, fs[i]);
  }

  /** The keys of a batch that keeps its members' ids are those ids. */
  lemma BatchKeys(mids: seq<int>, f: Family)
    requires |mids| == |f.members| && forall a :: 0 <= a < |f.members| ==> f.members[a].id.Some?
    requires forall a :: 0 <= a < |mids| ==> mids[a] == f.members[a].id.value
    ensures (set a | 0 <= a < |mids| :: mids[a]) == OwnKeys(f)
  {
  }

  /** The member ids one family of a list with explicit ids brings. */
  ghost function OwnKeys(f: Family): set<int>
    requires forall a :: 0 <= a < |f.members| ==> f.members[a].id.Some?
  {
    set a | 0 <= a < |f.members| :: f.members[a].id.value
  }

  lemma FamilyKeysGrow(fs: seq<Family>, i: int)
    requires ExplicitIds(fs) && 0 <= i < |fs|
    ensures FamilyKeys(fs, i + 1) == FamilyKeys(fs, i) + {fs[i].id.value}
  {
  }

  lemma MemberKeysGrow(fs: seq<Family>, i: int)
    requires ExplicitIds(fs) && 0 <= i < |fs|
    ensures MemberKeys(fs, i + 1) == MemberKeys(fs, i) + OwnKeys(fs[i])
  {
  }
}
