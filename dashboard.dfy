/**
 * src/components/Dashboard.tsx: the four counters, the histogram of families
 * by number of children (`childrenCountMap`), the children's and parents' age
 * groups, and the list of recently changed families.
 *
 * The clock enters as `year` (the current year), `cutoff` (the instant seven
 * days ago) and `time`/`birthYear`, which read a stored date text as an
 * instant or as its year.
 */
module Dashboard {
  import opened Wrappers
  import opened Types
  import opened Seqs
  import opened Ordering

  // ---------------------------------------------------------------------------
  // counters
  // ---------------------------------------------------------------------------

  predicate IsActive(f: Family) {
    f.status == StatusLabel(Active)
  }

  predicate IsInactive(f: Family) {
    f.status == StatusLabel(Inactive)
  }

  function MemberCount(f: Family): int {
    |f.members|
  }

  function ChildCount(f: Family): int {
    Count(f.members, IsChild)
  }

  /** `activeFamilies + inactiveFamilies` is the number of families when every status is one of the two labels. */
  lemma StatusCountsCover(fs: seq<Family>)
    requires forall i :: 0 <= i < |fs| ==> IsActive(fs[i]) || IsInactive(fs[i])
    ensures Count(fs, IsActive) + Count(fs, IsInactive) == |fs|
  {
    FilterPartition(fs, IsActive, IsInactive);
  }

  /** `totalChildren <= totalMembers`, both as sums over the families. */
  lemma {:induction false} ChildrenAtMostMembers(fs: seq<Family>)
    ensures 0 <= Sum(fs, ChildCount) <= Sum(fs, MemberCount)
  {
    if fs != [] {
      ChildrenAtMostMembers(fs[..|fs| - 1]);
    }
  }

  // ---------------------------------------------------------------------------
  // tallies: a map from a bucket to the number of elements that fell in it
  // ---------------------------------------------------------------------------

  /** `map.get(k) || 0`. */
  function At(h: map<nat, nat>, k: nat): nat {
    if k in h then h[k] else 0
  }

  /** Adds one to the bucket `k`, if there is one. */
  function Bump(h: map<nat, nat>, k: Option<nat>): map<nat, nat> {
    if k.None? then h else h[k.value := At(h, k.value) + 1]
  }

  /** The tally of `s` by `bucket`, element by element. */
  function Tally<T>(s: seq<T>, bucket: T -> Option<nat>): map<nat, nat> {
    if s == [] then map[] else Bump(Tally(s[..|s| - 1], bucket), bucket(s[|s| - 1]))
  }

  /** The sum of the buckets `0..n-1`. */
  function Total(h: map<nat, nat>, n: nat): nat {
    if n == 0 then 0 else Total(h, n - 1) + At(h, n - 1)
  }

  /** The elements that fall in bucket `k`. */
  function InBucket<T>(bucket: T -> Option<nat>, k: nat): T -> bool {
    x => bucket(x) == Some(k)
  }

  /** The elements that fall in some bucket. */
  function Counted<T>(bucket: T -> Option<nat>): T -> bool {
    x => bucket(x).Some?
  }

  /** Adding one element to a tally bumps that element's bucket. */
  lemma TallySnoc<T>(s: seq<T>, x: T, bucket: T -> Option<nat>)
    ensures Tally(s + [x], bucket) == Bump(Tally(s, bucket), bucket(x))
  {
    assert (s + [x])[..|s|] == s;
  }

  /** Bucket `k` of a tally counts exactly the elements that fall in bucket `k`. */
  lemma {:induction false} TallyAt<T>(s: seq<T>, bucket: T -> Option<nat>, k: nat)
    ensures At(Tally(s, bucket), k) == Count(s, InBucket(bucket, k))
  {
    if s != [] {
      TallyAt(s[..|s| - 1], bucket, k);
    }
  }

  lemma {:induction false} TotalBump(h: map<nat, nat>, c: nat, n: nat)
    ensures Total(h[c := At(h, c) + 1], n) == Total(h, n) + (if c < n then 1 else 0)
  {
    if n > 0 {
      TotalBump(h, c, n - 1);
    }
  }

  /** An empty tally adds up to nothing. */
  lemma {:induction false} TotalEmpty(n: nat)
    ensures Total(map[], n) == 0
  {
    if n > 0 {
      TotalEmpty(n - 1);
    }
  }

  /** When every bucket is below `n`, the buckets `0..n-1` add up to the number of elements with a bucket. */
  lemma {:induction false} TallyTotal<T>(s: seq<T>, bucket: T -> Option<nat>, n: nat)
    requires forall i :: 0 <= i < |s| && bucket(s[i]).Some? ==> bucket(s[i]).value < n
    ensures Total(Tally(s, bucket), n) == Count(s, Counted(bucket))
  {
    if s == [] {
      TotalEmpty(n);
    } else {
      var init, x := s[..|s| - 1], s[|s| - 1];
      TallyTotal(init, bucket, n);
      assert Count(s, Counted(bucket)) == Count(init, Counted(bucket)) + (if bucket(x).Some? then 1 else 0);
      assert Tally(s, bucket) == Bump(Tally(init, bucket), bucket(x));
      if bucket(x).Some? {
        assert bucket(x).value < n;
        TotalBump(Tally(init, bucket), bucket(x).value, n);
      }
    }
  }

  // ---------------------------------------------------------------------------
  // childrenCountMap
  // ---------------------------------------------------------------------------

  function ChildrenBucket(f: Family): Option<nat> {
    Some(Count(f.members, IsChild))
  }

  /** The histogram's key `k` counts the families with exactly `k` children. */
  lemma HistogramAt(fs: seq<Family>, k: nat)
    ensures At(Tally(fs, ChildrenBucket), k) == Count(fs, InBucket(ChildrenBucket, k))
  {
    TallyAt(fs, ChildrenBucket, k);
  }

  /** The histogram's values add up to the number of families. */
  lemma HistogramTotal(fs: seq<Family>, n: nat)
    requires forall i :: 0 <= i < |fs| ==> Count(fs[i].members, IsChild) < n
    ensures Total(Tally(fs, ChildrenBucket), n) == |fs|
  {
    TallyTotal(fs, ChildrenBucket, n);
    FilterAll(fs, Counted(ChildrenBucket));
  }

  // ---------------------------------------------------------------------------
  // age groups
  // ---------------------------------------------------------------------------

  /** `m.birthDate ? currentYear - birthYear : -1`. */
  function Age(m: Member, year: int, birthYear: string -> int): int {
    if m.birthDate != "" then year - birthYear(m.birthDate) else -1
  }

  const ChildGroupLabels: seq<string> := ["0-3 Inf.", "4-6 Inf.", "7-12 Prim.", "13-16 ESO", "17-18 Bach.", "+18"]
  const ParentGroupLabels: seq<string> := ["20-29", "30-39", "40-49", "50-59", "60+"]

  /** The child age group of an age: inclusive upper bounds 3, 6, 12, 16, 18, then the rest. */
  function ChildGroup(age: int): (g: nat)
    ensures g < |ChildGroupLabels|
    ensures g == 0 <==> age <= 3
    ensures g == 1 <==> 4 <= age <= 6
    ensures g == 2 <==> 7 <= age <= 12
    ensures g == 3 <==> 13 <= age <= 16
    ensures g == 4 <==> 17 <= age <= 18
    ensures g == 5 <==> 18 < age
  {
    if age <= 3 then 0 else if age <= 6 then 1 else if age <= 12 then 2
    else if age <= 16 then 3 else if age <= 18 then 4 else 5
  }

  /** The parent age group of an age: one per decade from 20 to 59, then `60+`; none under 20. */
  function ParentGroup(age: int): (g: Option<nat>)
    ensures g.None? <==> age < 20
    ensures g.Some? ==> g.value < |ParentGroupLabels|
    ensures forall d :: 0 <= d < 4 ==> (g == Some(d) <==> 20 + 10 * d <= age <= 29 + 10 * d)
    ensures g == Some(4) <==> 60 <= age
  {
    if 20 <= age <= 29 then Some(0)
    else if 30 <= age <= 39 then Some(1)
    else if 40 <= age <= 49 then Some(2)
    else if 50 <= age <= 59 then Some(3)
    else if age >= 60 then Some(4)
    else None
  }

  /** The child group a member is counted in; `age === -1` is skipped. */
  function ChildBucket(year: int, birthYear: string -> int): Member -> Option<nat> {
    (m: Member) =>
      var age := Age(m, year, birthYear);
      if age == -1 || !IsChild(m) then None else Some(ChildGroup(age))
  }

  /** The parent group a member is counted in; only FATHER, MOTHER and TUTOR are. */
  function ParentBucket(year: int, birthYear: string -> int): Member -> Option<nat> {
    (m: Member) =>
      var age := Age(m, year, birthYear);
      if age == -1 || IsChild(m) || !IsParent(m) then None else ParentGroup(age)
  }

  /** A member without a birth date is counted in no group; a dated child in exactly one child group. */
  lemma BucketsOfMember(m: Member, year: int, birthYear: string -> int)
    ensures m.birthDate == "" ==> ChildBucket(year, birthYear)(m).None? && ParentBucket(year, birthYear)(m).None?
    ensures ChildBucket(year, birthYear)(m).Some? ==> ParentBucket(year, birthYear)(m).None?
    ensures IsChild(m) && Age(m, year, birthYear) != -1 ==>
              ChildBucket(year, birthYear)(m) == Some(ChildGroup(Age(m, year, birthYear)))
    ensures IsParent(m) && Age(m, year, birthYear) != -1 && Age(m, year, birthYear) < 20 ==>
              ParentBucket(year, birthYear)(m).None?
  {
  }

  /** Every member of every family, family by family. */
  function AllMembers(fs: seq<Family>): seq<Member> {
    if fs == [] then [] else AllMembers(fs[..|fs| - 1]) + fs[|fs| - 1].members
  }

  /** The six child groups add up to the number of members counted as children. */
  lemma ChildGroupsTotal(fs: seq<Family>, year: int, birthYear: string -> int)
    ensures Total(Tally(AllMembers(fs), ChildBucket(year, birthYear)), |ChildGroupLabels|)
            == Count(AllMembers(fs), Counted(ChildBucket(year, birthYear)))
  {
    TallyTotal(AllMembers(fs), ChildBucket(year, birthYear), |ChildGroupLabels|);
  }

  /** The five parent groups add up to the number of members counted as parents. */
  lemma ParentGroupsTotal(fs: seq<Family>, year: int, birthYear: string -> int)
    ensures Total(Tally(AllMembers(fs), ParentBucket(year, birthYear)), |ParentGroupLabels|)
            == Count(AllMembers(fs), Counted(ParentBucket(year, birthYear)))
  {
    TallyTotal(AllMembers(fs), ParentBucket(year, birthYear), |ParentGroupLabels|);
  }

  /** The object `{ label: 0, ... }` with one key per group. */
  function Zeros(n: nat): (z: map<nat, nat>)
    ensures forall b :: b in z <==> 0 <= b < n
    ensures forall b :: b in z ==> z[b] == 0
  {
    if n == 0 then map[] else Zeros(n - 1)[n - 1 := 0]
  }

  /** The group object holds every group's key, with the tally's count. */
  ghost predicate Groups(g: map<nat, nat>, n: nat, t: map<nat, nat>) {
    (forall b :: b in g <==> 0 <= b < n) && (forall b :: 0 <= b < n ==> g[b] == At(t, b))
  }

  /**
   * The `families.forEach` loop: it fills the histogram and, member by member,
   * the child and parent age groups.
   */
  method Tallies(fs: seq<Family>, year: int, birthYear: string -> int)
    returns (histogram: map<nat, nat>, children: map<nat, nat>, parents: map<nat, nat>)
    ensures histogram == Tally(fs, ChildrenBucket)
    ensures Groups(children, |ChildGroupLabels|, Tally(AllMembers(fs), ChildBucket(year, birthYear)))
    ensures Groups(parents, |ParentGroupLabels|, Tally(AllMembers(fs), ParentBucket(year, birthYear)))
  {
    histogram := map[];
    children := Zeros(|ChildGroupLabels|);
    parents := Zeros(|ParentGroupLabels|);
    var i := 0;
    ghost var seen: seq<Member> := [];
    while i < |fs|
      invariant 0 <= i <= |fs| && seen == AllMembers(fs[..i])
      invariant histogram == Tally(fs[..i], ChildrenBucket)
      invariant Groups(children, |ChildGroupLabels|, Tally(seen, ChildBucket(year, birthYear)))
      invariant Groups(parents, |ParentGroupLabels|, Tally(seen, ParentBucket(year, birthYear)))
    {
      var f := fs[i];
      var childCount := Count(f.members, IsChild);
      PrefixStep(fs, i, histogram);
      histogram := histogram[childCount := (if childCount in histogram then histogram[childCount] else 0) + 1];
      children, parents := TallyMembers(children, parents, seen, f.members, year, birthYear);
      seen := seen + f.members;
      i := i + 1;
    }
    assert fs[..i] == fs;
  }

  /** One more family extends the tally of families and the list of their members. */
  lemma PrefixStep(fs: seq<Family>, i: nat, h: map<nat, nat>)
    requires i < |fs| && h == Tally(fs[..i], ChildrenBucket)
    ensures var c := Count(fs[i].members, IsChild);
      h[c := (if c in h then h[c] else 0) + 1] == Tally(fs[..i + 1], ChildrenBucket)
    ensures AllMembers(fs[..i + 1]) == AllMembers(fs[..i]) + fs[i].members
  {
    assert fs[..i + 1][..i] == fs[..i];
  }

  /** `f.members.forEach(...)`: one family's members added to the two group objects. */
  method TallyMembers(children0: map<nat, nat>, parents0: map<nat, nat>, ghost before: seq<Member>,
                      ms: seq<Member>, year: int, birthYear: string -> int)
    returns (children: map<nat, nat>, parents: map<nat, nat>)
    requires Groups(children0, |ChildGroupLabels|, Tally(before, ChildBucket(year, birthYear)))
    requires Groups(parents0, |ParentGroupLabels|, Tally(before, ParentBucket(year, birthYear)))
    ensures Groups(children, |ChildGroupLabels|, Tally(before + ms, ChildBucket(year, birthYear)))
    ensures Groups(parents, |ParentGroupLabels|, Tally(before + ms, ParentBucket(year, birthYear)))
  {
    children, parents := children0, parents0;
    var j := 0;
    ghost var seen := before;
    assert before + ms[..0] == before;
    while j < |ms|
      invariant 0 <= j <= |ms| && seen == before + ms[..j]
      invariant Groups(children, |ChildGroupLabels|, Tally(seen, ChildBucket(year, birthYear)))
      invariant Groups(parents, |ParentGroupLabels|, Tally(seen, ParentBucket(year, birthYear)))
    {
      children, parents := CountMember(children, parents, seen, ms[j], year, birthYear);
      assert before + ms[..j + 1] == seen + [ms[j]];
      seen := seen + [ms[j]];
      j := j + 1;
    }
    assert ms[..j] == ms;
  }

  /** The body of the member loop: a dated child raises its child group, a dated parent its parent group. */
  method CountMember(children0: map<nat, nat>, parents0: map<nat, nat>, ghost seen: seq<Member>,
                     m: Member, year: int, birthYear: string -> int)
    returns (children: map<nat, nat>, parents: map<nat, nat>)
    requires Groups(children0, |ChildGroupLabels|, Tally(seen, ChildBucket(year, birthYear)))
    requires Groups(parents0, |ParentGroupLabels|, Tally(seen, ParentBucket(year, birthYear)))
    ensures Groups(children, |ChildGroupLabels|, Tally(seen + [m], ChildBucket(year, birthYear)))
    ensures Groups(parents, |ParentGroupLabels|, Tally(seen + [m], ParentBucket(year, birthYear)))
  {
    ghost var cb, pb := ChildBucket(year, birthYear)(m), ParentBucket(year, birthYear)(m);
    TallySnoc(seen, m, ChildBucket(year, birthYear));
    TallySnoc(seen, m, ParentBucket(year, birthYear));
    children, parents := children0, parents0;
    var age := if m.birthDate != "" then year - birthYear(m.birthDate) else -1;
    if age == -1 {
      assert cb.None? && pb.None?;
    } else if IsChild(m) {
      var g := ChildGroup(age);
      assert cb == Some(g) && pb.None?;
      children := children[g := children[g] + 1];
    } else if IsParent(m) {
      var g := ParentGroup(age);
      assert cb.None? && pb == g;
      if g.Some? {
        parents := parents[g.value := parents[g.value] + 1];
      }
    } else {
      assert cb.None? && pb.None?;
    }
    GroupsBump(children0, |ChildGroupLabels|, Tally(seen, ChildBucket(year, birthYear)), cb);
    GroupsBump(parents0, |ParentGroupLabels|, Tally(seen, ParentBucket(year, birthYear)), pb);
  }

  /** Raising one group of the object keeps it in step with the tally bumped in the same bucket. */
  lemma GroupsBump(g: map<nat, nat>, n: nat, t: map<nat, nat>, c: Option<nat>)
    requires Groups(g, n, t) && (c.Some? ==> c.value < n)
    ensures Groups(if c.Some? then g[c.value := g[c.value] + 1] else g, n, Bump(t, c))
  {
  }

  /** `Object.entries(groups).map(([name, value]) => ({ name, value }))`. */
  function AgeData(labels: seq<string>, groups: map<nat, nat>): (data: seq<(string, nat)>)
    requires forall b :: 0 <= b < |labels| ==> b in groups
    ensures |data| == |labels| && forall b :: 0 <= b < |labels| ==> data[b] == (labels[b], groups[b])
  {
    seq(|labels|, b requires 0 <= b < |labels| => (labels[b], groups[b]))
  }

  // ---------------------------------------------------------------------------
  // recentActivity
  // ---------------------------------------------------------------------------

  /** A stored date text read as an instant; an absent or empty text is no date. */
  function Stamp(t: Option<string>, time: string -> int): Option<int> {
    if t.Some? && t.value != "" then Some(time(t.value)) else None
  }

  /** Created or updated after the cutoff. */
  function RecentTest(cutoff: int, time: string -> int): Family -> bool {
    (f: Family) =>
      (Stamp(f.createdAt, time).Some? && Stamp(f.createdAt, time).value > cutoff)
      || (Stamp(f.updatedAt, time).Some? && Stamp(f.updatedAt, time).value > cutoff)
  }

  /** `a.updatedAt ? new Date(a.updatedAt).getTime() : 0`. */
  function UpdatedTime(f: Family, time: string -> int): int {
    Stamp(f.updatedAt, time).GetOr(0)
  }

  /** The comparator `dateB - dateA` as a key: most recently updated first. */
  function RecentKey(time: string -> int): Family -> Key {
    (f: Family) => Key(0 - UpdatedTime(f, time), "")
  }

  /** The recent families, most recently updated first. */
  function RecentSorted(fs: seq<Family>, cutoff: int, time: string -> int): (r: seq<Family>)
    ensures multiset(r) == multiset(Filter(fs, RecentTest(cutoff, time)))
  {
    SortBy(Filter(fs, RecentTest(cutoff, time)), RecentKey(time))
  }

  /** `families.filter(...).sort(...).slice(0, 10)`. */
  function RecentActivity(fs: seq<Family>, cutoff: int, time: string -> int): seq<Family> {
    var sorted := RecentSorted(fs, cutoff, time);
    if |sorted| <= 10 then sorted else sorted[..10]
  }

  /** At most ten families, each one of the families and changed after the cutoff, by non-increasing update time. */
  lemma RecentActivitySpec(fs: seq<Family>, cutoff: int, time: string -> int)
    ensures |RecentActivity(fs, cutoff, time)| <= 10
    ensures forall k :: 0 <= k < |RecentActivity(fs, cutoff, time)| ==>
              RecentActivity(fs, cutoff, time)[k] in fs && RecentTest(cutoff, time)(RecentActivity(fs, cutoff, time)[k])
    ensures forall i, j :: 0 <= i < j < |RecentActivity(fs, cutoff, time)| ==>
              UpdatedTime(RecentActivity(fs, cutoff, time)[i], time) >= UpdatedTime(RecentActivity(fs, cutoff, time)[j], time)
  {
    var recent := Filter(fs, RecentTest(cutoff, time));
    var sorted := RecentSorted(fs, cutoff, time);
    var r := RecentActivity(fs, cutoff, time);
    SortBySorted(recent, RecentKey(time));
    FilterMembers(fs, RecentTest(cutoff, time));
    forall k | 0 <= k < |r| ensures r[k] in fs && RecentTest(cutoff, time)(r[k]) {
      assert r[k] == sorted[k];
      assert sorted[k] in multiset(sorted);
      assert sorted[k] in recent;
    }
    forall i, j | 0 <= i < j < |r| ensures UpdatedTime(r[i], time) >= UpdatedTime(r[j], time) {
      assert r[i] == sorted[i] && r[j] == sorted[j];
      assert KeyLe(RecentKey(time)(sorted[i]), RecentKey(time)(sorted[j]));
    }
  }

  /** A recent family that is not shown was updated no later than the tenth one shown. */
  lemma RecentActivityCutoff(fs: seq<Family>, cutoff: int, time: string -> int, f: Family)
    requires f in fs && RecentTest(cutoff, time)(f) && f !in RecentActivity(fs, cutoff, time)
    ensures |RecentActivity(fs, cutoff, time)| == 10
    ensures UpdatedTime(f, time) <= UpdatedTime(RecentActivity(fs, cutoff, time)[9], time)
  {
    var recent := Filter(fs, RecentTest(cutoff, time));
    var sorted := RecentSorted(fs, cutoff, time);
    var r := RecentActivity(fs, cutoff, time);
    SortBySorted(recent, RecentKey(time));
    FilterMembers(fs, RecentTest(cutoff, time));
    assert f in multiset(recent);
    assert f in multiset(sorted);
    var k :| 0 <= k < |sorted| && sorted[k] == f;
    assert k >= 10;
    assert r[9] == sorted[9];
    assert KeyLe(RecentKey(time)(sorted[9]), RecentKey(time)(sorted[k]));
  }
}
