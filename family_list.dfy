/**
 * src/components/FamilyList.tsx: the search and status filter, the sort by
 * name or membership number, the role order of `sortMembers`, and the rows of
 * the three spreadsheet exports (families, members, children).
 */
module FamilyList {
  import opened Wrappers
  import opened Types
  import opened Text
  import opened Seqs
  import opened Ordering

  // ---------------------------------------------------------------------------
  // sortMembers
  // ---------------------------------------------------------------------------

  /** `rolePriority[role] || 99`: parents and tutors 1, children 2, anything else 99. */
  function RolePriority(role: string): (p: int)
    ensures p == 1 <==> role == "Padre" || role == "Madre" || role == "Tutor"
    ensures p == 2 <==> role == "Hijo/a"
    ensures p == 1 || p == 2 || p == 99
  {
    if role == "Padre" || role == "Madre" || role == "Tutor" then 1
    else if role == "Hijo/a" then 2
    else 99
  }

  /** The comparator `priority(a) - priority(b)` as a sort key. */
  function RoleKey(m: Member): Key {
    Key(RolePriority(m.role), "")
  }

  /** `[...members].sort(...)`: a stable sort by role priority. */
  function SortMembers(ms: seq<Member>): (r: seq<Member>)
    ensures |r| == |ms| && multiset(r) == multiset(ms)
  {
    SortBy(ms, RoleKey)
  }

  /**
   * The sorted members are ordered by priority, so every parent or tutor comes
   * before every child, and members of equal priority keep their input order.
   */
  lemma SortMembersOrder(ms: seq<Member>)
    ensures forall i, j :: 0 <= i < j < |SortMembers(ms)| ==>
              RolePriority(SortMembers(ms)[i].role) <= RolePriority(SortMembers(ms)[j].role)
    ensures forall i, j :: (0 <= i < |SortMembers(ms)| && 0 <= j < |SortMembers(ms)|
              && IsParent(SortMembers(ms)[i]) && IsChild(SortMembers(ms)[j])) ==> i < j
    ensures forall p :: WithKey(SortMembers(ms), RoleKey, Key(p, "")) == WithKey(ms, RoleKey, Key(p, ""))
  {
    var r := SortMembers(ms);
    SortBySorted(ms, RoleKey);
    forall i, j | 0 <= i < |r| && 0 <= j < |r| && IsParent(r[i]) && IsChild(r[j])
      ensures i < j
    {
    }
    forall p ensures WithKey(r, RoleKey, Key(p, "")) == WithKey(ms, RoleKey, Key(p, "")) {
      SortByStable(ms, RoleKey, Key(p, ""));
    }
  }

  // ---------------------------------------------------------------------------
  // filteredFamilies
  // ---------------------------------------------------------------------------

  /** `searchTerm.toLowerCase().trim()`. */
  function SearchTerm(searchTerm: string): string {
    Trim(ToLower(searchTerm))
  }

  /** The search part of the filter for an already normalised term. */
  predicate MatchesSearch(f: Family, term: string) {
    term == ""
    || Contains(ToLower(f.familyName), term)
    || Contains(ToLower(f.membershipNumber), term)
    || Contains(ToLower(f.email), term)
    || Contains(f.phone, term)
  }

  /** The status select: 'ALL' or one status label. */
  datatype StatusFilter = All | Only(status: string)

  predicate MatchesStatus(f: Family, filter: StatusFilter) {
    filter.All? || f.status == filter.status
  }

  predicate Shown(f: Family, term: string, filter: StatusFilter) {
    MatchesSearch(f, term) && MatchesStatus(f, filter)
  }

  /** `families.filter(...)`. */
  function Filtered(families: seq<Family>, searchTerm: string, filter: StatusFilter): seq<Family> {
    var term := SearchTerm(searchTerm);
    Filter(families, (f: Family) => Shown(f, term, filter))
  }

  /**
   * The filtered list is a subsequence of the families, and a family is in it
   * exactly when it is one of them and matches both the search and the status.
   */
  lemma FilteredSpec(families: seq<Family>, searchTerm: string, filter: StatusFilter)
    ensures IsSubseq(Filtered(families, searchTerm, filter), families)
    ensures forall f :: f in Filtered(families, searchTerm, filter) <==>
              f in families && MatchesSearch(f, SearchTerm(searchTerm)) && MatchesStatus(f, filter)
  {
    var term := SearchTerm(searchTerm);
    FilterIsSubseq(families, (f: Family) => Shown(f, term, filter));
    FilterMembers(families, (f: Family) => Shown(f, term, filter));
  }

  /** A search term made only of whitespace normalises to the empty term. */
  lemma BlankTerm(searchTerm: string)
    requires forall i :: 0 <= i < |searchTerm| ==> IsSpace(searchTerm[i])
    ensures SearchTerm(searchTerm) == ""
  {
    LowerKeepsSpace(searchTerm);
    TrimAllSpace(ToLower(searchTerm));
  }

  /** With a blank search and the status 'ALL', every family is shown, in order. */
  lemma BlankSearchShowsAll(families: seq<Family>, searchTerm: string)
    requires forall i :: 0 <= i < |searchTerm| ==> IsSpace(searchTerm[i])
    ensures Filtered(families, searchTerm, All) == families
  {
    BlankTerm(searchTerm);
    FilterAll(families, (f: Family) => Shown(f, "", All));
  }

  /** Status 'ALL' filters on the search alone; a status keeps exactly the families with that status. */
  lemma StatusFilterSpec(f: Family, term: string, status: string)
    ensures Shown(f, term, All) <==> MatchesSearch(f, term)
    ensures Shown(f, term, Only(status)) <==> MatchesSearch(f, term) && f.status == status
  {
  }

  // ---------------------------------------------------------------------------
  // sortedFamilies
  // ---------------------------------------------------------------------------

  datatype SortField = ByName | ByNumber

  /** `parseInt(membershipNumber || '0', 10)`, with a text `parseInt` cannot read ranked as 0. */
  function NumberOf(f: Family): int {
    ParseIntPrefix(if f.membershipNumber == "" then "0" else f.membershipNumber).GetOr(0)
  }

  function FamilyKey(field: SortField): Family -> Key {
    match field
    case ByName => (f: Family) => Key(0, f.familyName)
    case ByNumber => (f: Family) => Key(NumberOf(f), "")
  }

  /** `[...filteredFamilies].sort(...)`. */
  function SortedFamilies(filtered: seq<Family>, field: SortField): (r: seq<Family>)
    ensures |r| == |filtered| && multiset(r) == multiset(filtered)
  {
    SortBy(filtered, FamilyKey(field))
  }

  /** An empty membership number sorts as 0, and `String(n)` sorts as `n`. */
  lemma NumberOfSpec(f: Family, n: nat)
    ensures f.membershipNumber == "" ==> NumberOf(f) == 0
    ensures f.membershipNumber == NatToString(n) ==> NumberOf(f) == n
  {
    if f.membershipNumber == "" {
      ParseIntDigits("0");
    }
    if f.membershipNumber == NatToString(n) {
      ParseIntShow(n);
    }
  }

  /** Sorting by number orders the families by ascending number; by name, by ascending name. */
  lemma SortedFamiliesOrder(filtered: seq<Family>)
    ensures forall i, j :: 0 <= i < j < |filtered| ==>
              NumberOf(SortedFamilies(filtered, ByNumber)[i]) <= NumberOf(SortedFamilies(filtered, ByNumber)[j])
    ensures forall i, j :: 0 <= i < j < |filtered| ==>
              StrLe(SortedFamilies(filtered, ByName)[i].familyName, SortedFamilies(filtered, ByName)[j].familyName)
  {
    SortBySorted(filtered, FamilyKey(ByNumber));
    SortBySorted(filtered, FamilyKey(ByName));
  }

  // ---------------------------------------------------------------------------
  // spreadsheet exports
  // ---------------------------------------------------------------------------

  /** `"${s}"`. */
  function Quote(s: string): string {
    "\"" + s + "\""
  }

  /** `value || '-'` for an optional text. */
  function OrDash(value: Option<string>): string {
    if value.None? || value.value == "" then "-" else value.value
  }

  /** `[headers.join(';'), ...rows.map(r => r.join(';'))].join('\n')`. */
  function Csv(headers: seq<string>, rows: seq<seq<string>>): string {
    Join([Join(headers, ';')] + JoinRows(rows), '\n')
  }

  function JoinRows(rows: seq<seq<string>>): (lines: seq<string>)
    ensures |lines| == |rows| && forall k :: 0 <= k < |rows| ==> lines[k] == Join(rows[k], ';')
  {
    seq(|rows|, k requires 0 <= k < |rows| => Join(rows[k], ';'))
  }

  const FamilyHeaders: seq<string> := ["Nº Socio", "Familia", "Estado", "Dirección", "Teléfono", "Email", "Miembros", "Hijos"]

  /** One line of the families export. */
  function FamilyRow(f: Family): (row: seq<string>)
    ensures |row| == |FamilyHeaders|
  {
    [f.membershipNumber, Quote(f.familyName), f.status, Quote(f.address), f.phone, f.email,
     IntToString(|f.members|), IntToString(Count(f.members, IsChild))]
  }

  /** `sortedFamilies.map(f => [...])`. */
  function FamilyRows(fs: seq<Family>): (rows: seq<seq<string>>)
    ensures |rows| == |fs| && forall k :: 0 <= k < |fs| ==> rows[k] == FamilyRow(fs[k])
  {
    seq(|fs|, k requires 0 <= k < |fs| => FamilyRow(fs[k]))
  }

  /** In each row of the families export, Miembros reads back as the member count and Hijos as a number no greater. */
  lemma FamilyRowCounts(f: Family)
    ensures ParseNumber(FamilyRow(f)[6]) == Some(|f.members|)
    ensures ParseNumber(FamilyRow(f)[7]) == Some(Count(f.members, IsChild))
    ensures Count(f.members, IsChild) <= |f.members|
  {
    ParseShow(|f.members|);
    ParseShow(Count(f.members, IsChild));
  }

  const MemberHeaders: seq<string> := ["Nº Socio", "Familia", "Nombre", "Apellidos", "Rol", "Sexo", "Fecha Nacimiento", "Contacto"]

  /** One line of the members export. */
  function MemberRow(f: Family, m: Member): (row: seq<string>)
    ensures |row| == |MemberHeaders|
  {
    [f.membershipNumber, Quote(f.familyName), Quote(m.firstName), Quote(m.lastName), m.role,
     OrDash(m.gender), m.birthDate, Quote(f.phone + " | " + f.email)]
  }

  /** The lines of one family's members, in the given order. */
  function MemberRowsOf(f: Family, ms: seq<Member>): (rows: seq<seq<string>>)
    ensures |rows| == |ms| && forall k :: 0 <= k < |ms| ==> rows[k] == MemberRow(f, ms[k])
  {
    seq(|ms|, k requires 0 <= k < |ms| => MemberRow(f, ms[k]))
  }

  /** The members export: each family in display order, its members in `sortMembers` order. */
  function MemberRows(fs: seq<Family>): seq<seq<string>> {
    if fs == [] then []
    else MemberRows(fs[..|fs| - 1]) + MemberRowsOf(fs[|fs| - 1], SortMembers(fs[|fs| - 1].members))
  }

  /** The members export has one line per member of every displayed family. */
  lemma {:induction false} MemberRowsCount(fs: seq<Family>)
    ensures |MemberRows(fs)| == Sum(fs, (f: Family) => |f.members|)
  {
    if fs != [] {
      MemberRowsCount(fs[..|fs| - 1]);
    }
  }

  /** `handleExportExcelMembers`: the nested `forEach` pushing one line per member. */
  method ExportMembers(fs: seq<Family>) returns (rows: seq<seq<string>>)
    ensures rows == MemberRows(fs)
  {
    rows := [];
    var i := 0;
    while i < |fs|
      invariant 0 <= i <= |fs|
      invariant rows == MemberRows(fs[..i])
    {
      var f := fs[i];
      rows := PushMemberRows(rows, f, SortMembers(f.members));
      assert fs[..i + 1][..i] == fs[..i];
      i := i + 1;
    }
    assert fs[..i] == fs;
  }

  /** `members.forEach(m => rows.push([...]))`. */
  method PushMemberRows(rows0: seq<seq<string>>, f: Family, ms: seq<Member>) returns (rows: seq<seq<string>>)
    ensures rows == rows0 + MemberRowsOf(f, ms)
  {
    rows := rows0;
    var j := 0;
    while j < |ms|
      invariant 0 <= j <= |ms|
      invariant rows == rows0 + MemberRowsOf(f, ms[..j])
    {
      rows := rows + [MemberRow(f, ms[j])];
      j := j + 1;
    }
    assert ms[..j] == ms;
  }

  const ChildHeaders: seq<string> := ["Nº Socio", "Familia", "Nombre", "Apellidos", "Edad", "Fecha Nacimiento", "Sexo"]

  /** `(a.birthDate || '').localeCompare(b.birthDate || '')` as a sort key. */
  function BirthKey(m: Member): Key {
    Key(0, m.birthDate)
  }

  /** One family's children, sorted by birth date text. */
  function SortedChildren(f: Family): (cs: seq<Member>)
    ensures multiset(cs) == multiset(Filter(f.members, IsChild))
  {
    SortBy(Filter(f.members, IsChild), BirthKey)
  }

  /** The children rows hold only children, each family's in ascending birth-date order. */
  lemma SortedChildrenSpec(f: Family)
    ensures forall k :: 0 <= k < |SortedChildren(f)| ==> IsChild(SortedChildren(f)[k])
    ensures forall m :: m in SortedChildren(f) <==> m in f.members && IsChild(m)
    ensures forall i, j :: 0 <= i < j < |SortedChildren(f)| ==>
              StrLe(SortedChildren(f)[i].birthDate, SortedChildren(f)[j].birthDate)
  {
    var cs := SortedChildren(f);
    var kids := Filter(f.members, IsChild);
    FilterMembers(f.members, IsChild);
    SortBySorted(kids, BirthKey);
    forall m ensures m in cs <==> m in kids {
      assert m in cs <==> m in multiset(cs);
      assert m in kids <==> m in multiset(kids);
    }
    forall k | 0 <= k < |cs| ensures IsChild(cs[k]) {
      assert cs[k] in cs;
    }
  }

  /**
   * One line of the children export. The age is `year` minus the year of the
   * birth date, which `birthYear` reads; a child without a date is 0.
   */
  function ChildRow(f: Family, m: Member, year: int, birthYear: string -> int): (row: seq<string>)
    ensures |row| == |ChildHeaders|
  {
    var age := if m.birthDate != "" then year - birthYear(m.birthDate) else 0;
    [f.membershipNumber, Quote(f.familyName), Quote(m.firstName), Quote(m.lastName),
     IntToString(age), m.birthDate, OrDash(m.gender)]
  }

  function ChildRowsOf(f: Family, cs: seq<Member>, year: int, birthYear: string -> int): (rows: seq<seq<string>>)
    ensures |rows| == |cs| && forall k :: 0 <= k < |cs| ==> rows[k] == ChildRow(f, cs[k], year, birthYear)
  {
    seq(|cs|, k requires 0 <= k < |cs| => ChildRow(f, cs[k], year, birthYear))
  }

  /** The children export: each family in display order, its children by birth date. */
  function ChildRows(fs: seq<Family>, year: int, birthYear: string -> int): seq<seq<string>> {
    if fs == [] then []
    else ChildRows(fs[..|fs| - 1], year, birthYear) + ChildRowsOf(fs[|fs| - 1], SortedChildren(fs[|fs| - 1]), year, birthYear)
  }

  /** The children export has one line per child of every displayed family. */
  lemma {:induction false} ChildRowsCount(fs: seq<Family>, year: int, birthYear: string -> int)
    ensures |ChildRows(fs, year, birthYear)| == Sum(fs, (f: Family) => Count(f.members, IsChild))
  {
    if fs != [] {
      ChildRowsCount(fs[..|fs| - 1], year, birthYear);
      var f := fs[|fs| - 1];
      assert |multiset(SortedChildren(f))| == |multiset(Filter(f.members, IsChild))|;
    }
  }

  /** `handleExportExcelChildren`: the nested `forEach` pushing one line per child. */
  method ExportChildren(fs: seq<Family>, year: int, birthYear: string -> int) returns (rows: seq<seq<string>>)
    ensures rows == ChildRows(fs, year, birthYear)
  {
    rows := [];
    var i := 0;
    while i < |fs|
      invariant 0 <= i <= |fs|
      invariant rows == ChildRows(fs[..i], year, birthYear)
    {
      var f := fs[i];
      rows := PushChildRows(rows, f, SortedChildren(f), year, birthYear);
      assert fs[..i + 1][..i] == fs[..i];
      i := i + 1;
    }
    assert fs[..i] == fs;
  }

  /** `children.forEach(m => rows.push([...]))`. */
  method PushChildRows(rows0: seq<seq<string>>, f: Family, cs: seq<Member>, year: int, birthYear: string -> int)
    returns (rows: seq<seq<string>>)
    ensures rows == rows0 + ChildRowsOf(f, cs, year, birthYear)
  {
    rows := rows0;
    var j := 0;
    while j < |cs|
      invariant 0 <= j <= |cs|
      invariant rows == rows0 + ChildRowsOf(f, cs[..j], year, birthYear)
    {
      rows := rows + [ChildRow(f, cs[j], year, birthYear)];
      j := j + 1;
    }
    assert cs[..j] == cs;
  }

  /** The text of the three export files, before the byte-order mark `downloadCSV` prepends. */
  function FamiliesCsv(fs: seq<Family>): string {
    Csv(FamilyHeaders, FamilyRows(fs))
  }

  function MembersCsv(fs: seq<Family>): string {
    Csv(MemberHeaders, MemberRows(fs))
  }

  function ChildrenCsv(fs: seq<Family>, year: int, birthYear: string -> int): string {
    Csv(ChildHeaders, ChildRows(fs, year, birthYear))
  }
}
