/**
 * src/components/SettingsPanel.tsx: the backup CSV written by `handleExportCSV`,
 * the preview list parsed back by `handleImportCSV`, and the guards in front of
 * `handleAddUser` and `handleDeleteUser`.
 *
 * The export writes a byte-order mark, a header line and one `;`-separated line
 * of sixteen columns per (family, member) pair. The import splits the text into
 * lines, drops blank ones and the first remaining one, cleans every column,
 * skips rows with fewer than eight columns, and groups the rest by family id.
 */
module SettingsPanel {
  import opened Wrappers
  import opened Types
  import opened Text
  import opened Seqs

  // ---------------------------------------------------------------------------
  // export
  // ---------------------------------------------------------------------------

  const Bom: char := '\U{FEFF}'

  const Headers: seq<string> := [
    "IdFamilia", "NumeroSocio", "NombreFamilia", "Direccion", "TelefonoFamilia",
    "EmailFamilia", "Estado", "FechaAlta",
    "IdMiembro", "NombreMiembro", "ApellidosMiembro", "Rol", "FechaNacimiento",
    "Genero", "EmailMiembro", "TelefonoMiembro"]

  /** `String(id)`: an absent id prints as `undefined`. */
  function ShowId(id: Option<int>): string {
    if id.Some? then IntToString(id.value) else "undefined"
  }

  function Quoted(s: string): string {
    "\"" + s + "\""
  }

  /** The sixteen columns written for member `m` of family `f`: eight of the family, eight of the member. */
  function Row(f: Family, m: Member): seq<string>
  {
    FamilyColumns(f) + MemberColumns(m)
  }

  function FamilyColumns(f: Family): seq<string> {
    [ShowId(f.id), f.membershipNumber, Quoted(f.familyName), Quoted(f.address), f.phone, f.email,
     f.status, f.joinDate]
  }

  /** `m.gender || ''` and the like: an absent or empty optional column is written empty. */
  function MemberColumns(m: Member): seq<string> {
    [ShowId(m.id), Quoted(m.firstName), Quoted(m.lastName), m.role, m.birthDate,
     m.gender.GetOr(""), m.email.GetOr(""), m.phone.GetOr("")]
  }

  /** One line per member of `ms`, in order, each carrying family `f`'s columns. */
  function FamilyLines(f: Family, ms: seq<Member>): (r: seq<string>)
    ensures |r| == |ms|
  {
    if ms == [] then [] else FamilyLines(f, ms[..|ms| - 1]) + [Join(Row(f, ms[|ms| - 1]), ';')]
  }

  /** The data lines of the backup: families in order, and the members of each in order. */
  function DataRows(fs: seq<Family>): seq<string>
  {
    if fs == [] then [] else DataRows(fs[..|fs| - 1]) + FamilyLines(fs[|fs| - 1], fs[|fs| - 1].members)
  }

  /** The whole backup text. */
  function ExportText(fs: seq<Family>): string
  {
    [Bom] + Join([Join(Headers, ';')] + DataRows(fs), '\n')
  }

  /** `handleExportCSV`: the header line, then the lines of every family, joined by newlines. */
  method ExportCsv(fs: seq<Family>) returns (text: string)
    ensures text == ExportText(fs)
  {
    var rows := WriteRows(Join(Headers, ';'), fs);
    text := [Bom] + Join(rows, '\n');
  }

  /** The outer `forEach`: below the header line, the lines of each family in turn. */
  method WriteRows(header: string, fs: seq<Family>) returns (rows: seq<string>)
    ensures rows == [header] + DataRows(fs)
  {
    rows := [header];
    var i := 0;
    while i < |fs|
      invariant 0 <= i <= |fs|
      invariant rows == [header] + DataRows(fs[..i])
    {
      rows := PushFamily(rows, fs[i]);
      DataRowsSnoc(fs, i);
      AppendAssoc([header], DataRows(fs[..i]), FamilyLines(fs[i], fs[i].members));
      i := i + 1;
    }
    assert fs[..i] == fs;
  }

  lemma DataRowsSnoc(fs: seq<Family>, i: int)
    requires 0 <= i < |fs|
    ensures DataRows(fs[..i + 1]) == DataRows(fs[..i]) + FamilyLines(fs[i], fs[i].members)
  {
    assert fs[..i + 1][..i] == fs[..i];
  }

  lemma AppendAssoc<T>(a: seq<T>, b: seq<T>, c: seq<T>)
    ensures (a + b) + c == a + (b + c)
  {
  }

  /** The inner `forEach`: one pushed line per member of `f`. */
  method PushFamily(rows: seq<string>, f: Family) returns (rows': seq<string>)
    ensures rows' == rows + FamilyLines(f, f.members)
  {
    rows' := rows;
    var j := 0;
    while j < |f.members|
      invariant 0 <= j <= |f.members|
      invariant rows' == rows + FamilyLines(f, f.members[..j])
    {
      assert f.members[..j + 1][..j] == f.members[..j];
      rows' := rows' + [Join(Row(f, f.members[j]), ';')];
      j := j + 1;
    }
    assert f.members[..j] == f.members;
  }

  /** The export writes exactly one data line per member; a family without members writes none. */
  lemma {:induction false} DataRowsCount(fs: seq<Family>)
    ensures |DataRows(fs)| == Sum(fs, (f: Family) => |f.members|)
  {
    if fs != [] {
      DataRowsCount(fs[..|fs| - 1]);
    }
  }

  // ---------------------------------------------------------------------------
  // import
  // ---------------------------------------------------------------------------

  /** `s.replace(/^"|"$/g, '')`: one leading and one trailing double quote go. */
  function Unquote(s: string): (r: string)
    ensures var lead: string := if |s| > 0 && s[0] == '"' then "\"" else "";
            var trail: string := if |s| > |lead| && s[|s| - 1] == '"' then "\"" else "";
            s == lead + r + trail
  {
    var t := if |s| > 0 && s[0] == '"' then s[1..] else s;
    if |t| > 0 && t[|t| - 1] == '"' then t[..|t| - 1] else t
  }

  /** `clean`: unquote, then trim. */
  function Clean(s: string): string
  {
    Trim(Unquote(s))
  }

  /** The cleaned columns of a line. */
  function Cells(line: string): (cols: seq<string>)
    ensures |cols| == |Split(line, ';')|
    ensures forall k :: 0 <= k < |cols| ==> cols[k] == Clean(Split(line, ';')[k])
  {
    var parts := Split(line, ';');
    seq(|parts|, k requires 0 <= k < |parts| => Clean(parts[k]))
  }

  /** Column `k`, or the empty string past the end of the row. */
  function Col(cols: seq<string>, k: nat): string {
    if k < |cols| then cols[k] else ""
  }

  predicate NonBlank(line: string) {
    Trim(line) != ""
  }

  /** A line of text that is not blank. */
  predicate OneLine(line: string) {
    '\n' !in line && NonBlank(line)
  }

  /** The lines after the header, blank lines left out. */
  function DataLines(text: string): (r: seq<string>)
    ensures forall k :: 0 <= k < |r| ==> NonBlank(r[k])
  {
    var lines := Filter(Split(text, '\n'), NonBlank);
    if lines == [] then [] else lines[1..]
  }

  /** `x || undefined` for a text column. */
  function NonEmpty(s: string): (r: Option<string>)
    ensures r.Some? <==> s != ""
    ensures r.Some? ==> r.value == s
  {
    if s == "" then None else Some(s)
  }

  /** `Math.floor(Math.random() * 9000000) + 1000000`, for a draw `r` of the generator. */
  function RandomId(r: int): (id: int)
    ensures 1000000 <= id < 10000000
  {
    1000000 + r % 9000000
  }

  /**
   * `Number(c) || <random id>`: a column that reads as a non-zero number is that
   * number, anything else (empty, zero, not a number) takes the next draw.
   * Returns the id and the number of draws taken so far.
   */
  function TakeId(c: string, draws: nat, draw: nat -> int): (r: (int, nat))
    ensures ParseNumber(c).Some? && ParseNumber(c).value != 0 ==> r == (ParseNumber(c).value, draws)
    ensures !(ParseNumber(c).Some? && ParseNumber(c).value != 0) ==> r == (RandomId(draw(draws)), draws + 1)
  {
    var n := ParseNumber(c);
    if n.Some? && n.value != 0 then (n.value, draws) else (RandomId(draw(draws)), draws + 1)
  }

  /** The family a row opens: columns 0 to 7, no members yet, and the import's audit stamp. */
  function NewFamily(cols: seq<string>, id: int, user: string, now: string): Family
    requires |cols| >= 8
  {
    Family(Some(id), cols[1], cols[2], cols[3], cols[4], cols[5], cols[7], cols[6], [],
           None, Some(now), Some("Import CSV (" + user + ")"), None)
  }

  /** The member a row adds: columns 9 to 15; empty gender, email and phone become absent. */
  function NewMember(cols: seq<string>, id: int): Member
  {
    Member(Some(id), None, Col(cols, 9), Col(cols, 10), Col(cols, 12), Col(cols, 11),
           NonEmpty(Col(cols, 13)), None, NonEmpty(Col(cols, 14)), NonEmpty(Col(cols, 15)))
  }

  /** `familiesMap` with its insertion order, and the number of random draws taken. */
  datatype Grouping = Grouping(order: seq<int>, groups: map<int, Family>, draws: nat)

  /** Every group appears once in the insertion order, and the order lists only groups. */
  ghost predicate WellFormed(g: Grouping) {
    && (forall i, j :: 0 <= i < j < |g.order| ==> g.order[i] != g.order[j])
    && (forall id :: id in g.groups <==> id in g.order)
  }

  const Start := Grouping([], map[], 0)

  /** `familiesMap.set(id, f)` for an id the map does not have. */
  function Open(g: Grouping, id: int, f: Family): (r: Grouping)
    requires WellFormed(g) && id !in g.groups
    ensures WellFormed(r) && id in r.groups
  {
    Grouping(g.order + [id], g.groups[id := f], g.draws)
  }

  /** `familiesMap.get(id)!.members.push(m)`. */
  function Append(g: Grouping, id: int, m: Member): (r: Grouping)
    requires WellFormed(g) && id in g.groups
    ensures WellFormed(r)
  {
    g.(groups := g.groups[id := g.groups[id].(members := g.groups[id].members + [m])])
  }

  /**
   * What a row of at least eight columns does: the id of column 0 (or a draw)
   * names the family; an unseen id is opened with `NewFamily` of the row at the
   * end of the insertion order; a member is appended to that family exactly
   * when column 8 is non-empty; no other family changes.
   */
  ghost predicate RowEffect(g: Grouping, cols: seq<string>, user: string, now: string, draw: nat -> int, r: Grouping)
    requires |cols| >= 8
  {
    var t := TakeId(cols[0], g.draws, draw);
    var fam := if t.0 in g.groups then g.groups[t.0] else NewFamily(cols, t.0, user, now);
    var u := TakeId(Col(cols, 8), t.1, draw);
    var added := if Col(cols, 8) == "" then [] else [NewMember(cols, u.0)];
    && r.order == (if t.0 in g.groups then g.order else g.order + [t.0])
    && r.groups == g.groups[t.0 := fam.(members := fam.members + added)]
    && r.draws == (if Col(cols, 8) == "" then t.1 else u.1)
  }

  /** One data line: its cleaned columns, grouped. */
  function Step(g: Grouping, line: string, user: string, now: string, draw: nat -> int): (r: Grouping)
    requires WellFormed(g)
    ensures WellFormed(r)
    ensures |Cells(line)| < 8 ==> r == g
    ensures |Cells(line)| >= 8 ==> RowEffect(g, Cells(line), user, now, draw, r)
  {
    Group(g, Cells(line), user, now, draw)
  }

  /**
   * A row of at least eight columns opens its family unless the family id was
   * seen before, and adds a member when column 8 is non-empty.
   */
  function Group(g: Grouping, cols: seq<string>, user: string, now: string, draw: nat -> int): (r: Grouping)
    requires WellFormed(g)
    ensures WellFormed(r)
    ensures |cols| < 8 ==> r == g
    ensures |cols| >= 8 ==> RowEffect(g, cols, user, now, draw, r)
  {
    if |cols| < 8 then g
    else
      var t := TakeId(cols[0], g.draws, draw);
      var g0 := g.(draws := t.1);
      var g1 := if t.0 in g0.groups then g0 else Open(g0, t.0, NewFamily(cols, t.0, user, now));
      if Col(cols, 8) == "" then
        var fam := if t.0 in g.groups then g.groups[t.0] else NewFamily(cols, t.0, user, now);
        assert fam.(members := fam.members + []) == fam;
        assert t.0 in g.groups ==> g.groups[t.0 := fam] == g.groups;
        g1
      else
        var u := TakeId(cols[8], g1.draws, draw);
        Append(g1.(draws := u.1), t.0, NewMember(cols, u.0))
  }

  /**
   * The first row of a family id fixes the family's columns: a later row leaves
   * them alone and at most appends one member; the insertion order only grows.
   */
  lemma GroupKeeps(g: Grouping, cols: seq<string>, user: string, now: string, draw: nat -> int)
    requires WellFormed(g)
    ensures var r := Group(g, cols, user, now, draw);
            && g.order <= r.order && |r.order| <= |g.order| + 1
            && forall id :: id in g.groups ==> Extended(g.groups[id], r.groups[id])
  {
    if |cols| >= 8 {
      var t := TakeId(cols[0], g.draws, draw);
      var g0 := g.(draws := t.1);
      var g1 := if t.0 in g0.groups then g0 else Open(g0, t.0, NewFamily(cols, t.0, user, now));
      if t.0 !in g0.groups {
        OpenKeeps(g0, t.0, NewFamily(cols, t.0, user, now));
      }
      if Col(cols, 8) != "" {
        var u := TakeId(cols[8], g1.draws, draw);
        AppendKeeps(g1.(draws := u.1), t.0, NewMember(cols, u.0));
      } else {
        assert forall id :: id in g.groups ==> Extended(g.groups[id], g1.groups[id]);
      }
    } else {
      assert forall id :: id in g.groups ==> Extended(g.groups[id], g.groups[id]);
    }
  }

  lemma OpenKeeps(g: Grouping, id: int, f: Family)
    requires WellFormed(g) && id !in g.groups
    ensures g.order <= Open(g, id, f).order && |Open(g, id, f).order| == |g.order| + 1
    ensures forall k :: k in g.groups ==> Open(g, id, f).groups[k] == g.groups[k]
  {
  }

  /** `after` is `before` with the same columns and at most one more member at the end. */
  predicate Extended(before: Family, after: Family) {
    && after.(members := []) == before.(members := [])
    && before.members <= after.members
    && |after.members| <= |before.members| + 1
  }

  lemma AppendKeeps(g: Grouping, id: int, m: Member)
    requires WellFormed(g) && id in g.groups
    ensures g.order == Append(g, id, m).order
    ensures forall k :: k in g.groups ==> Extended(g.groups[k], Append(g, id, m).groups[k])
  {
    var r := Append(g, id, m);
    forall k | k in g.groups
      ensures Extended(g.groups[k], r.groups[k])
    {
      if k == id {
        assert r.groups[k].members == g.groups[k].members + [m];
      } else {
        assert r.groups[k] == g.groups[k];
      }
    }
  }

  /** The grouping after a sequence of data lines, taken in order. */
  function Fold(g: Grouping, lines: seq<string>, user: string, now: string, draw: nat -> int): (r: Grouping)
    requires WellFormed(g)
    ensures WellFormed(r)
  {
    if lines == [] then g else Step(Fold(g, lines[..|lines| - 1], user, now, draw), lines[|lines| - 1], user, now, draw)
  }

  /** `Array.from(familiesMap.values())`: the groups in first-appearance order. */
  function Preview(g: Grouping): (fs: seq<Family>)
    requires WellFormed(g)
    ensures |fs| == |g.order|
    ensures forall i :: 0 <= i < |g.order| ==> g.order[i] in g.groups && fs[i] == g.groups[g.order[i]]
  {
    assert forall i :: 0 <= i < |g.order| ==> g.order[i] in g.order;
    seq(|g.order|, i requires 0 <= i < |g.order| => g.groups[g.order[i]])
  }

  /** The preview list `handleImportCSV` builds from a text. */
  function ImportText(text: string, user: string, now: string, draw: nat -> int): seq<Family>
  {
    Preview(Fold(Start, DataLines(text), user, now, draw))
  }

  /**
   * `handleImportCSV`'s `forEach` over the data lines. `user` is the current
   * username, `now` the import time stamp and `draw(n)` the `n`-th value of
   * `Math.random()` scaled by the source.
   */
  method ImportCsv(text: string, user: string, now: string, draw: nat -> int) returns (preview: seq<Family>)
    ensures preview == ImportText(text, user, now, draw)
  {
    var lines := DataLines(text);
    var families := Start;
    var k := 0;
    while k < |lines|
      invariant 0 <= k <= |lines|
      invariant WellFormed(families)
      invariant families == Fold(Start, lines[..k], user, now, draw)
    {
      assert lines[..k + 1][..k] == lines[..k];
      families := ReadLine(families, lines[k], user, now, draw);
      k := k + 1;
    }
    assert lines[..k] == lines;
    preview := Preview(families);
  }

  /** The `forEach` callback for one data line. */
  method ReadLine(families: Grouping, line: string, user: string, now: string, draw: nat -> int) returns (families': Grouping)
    requires WellFormed(families)
    ensures families' == Step(families, line, user, now, draw)
  {
    families' := families;
    var cols := Cells(line);
    if |cols| < 8 {
      return;
    }
    var t := TakeId(cols[0], families'.draws, draw);
    var famId := t.0;
    families' := families'.(draws := t.1);
    if famId !in families'.groups {
      families' := Open(families', famId, NewFamily(cols, famId, user, now));
    }
    if Col(cols, 8) != "" {
      var u := TakeId(cols[8], families'.draws, draw);
      families' := families'.(draws := u.1);
      families' := Append(families', famId, NewMember(cols, u.0));
    }
  }

  /** Appending lines folds them after the earlier ones. */
  lemma {:induction false} FoldAppend(g: Grouping, a: seq<string>, b: seq<string>, user: string, now: string, draw: nat -> int)
    requires WellFormed(g)
    ensures Fold(g, a + b, user, now, draw) == Fold(Fold(g, a, user, now, draw), b, user, now, draw)
    decreases |b|
  {
    if b == [] {
      assert a + b == a;
    } else {
      AppendLast(a, b);
      FoldAppend(g, a, b[..|b| - 1], user, now, draw);
    }
  }

  /**
   * Later lines never change the columns of a family an earlier line opened,
   * and only append members to it; families keep their first-appearance place.
   */
  lemma {:induction false} FirstRowFixesFamily(g: Grouping, lines: seq<string>, user: string, now: string, draw: nat -> int)
    requires WellFormed(g)
    ensures g.order <= Fold(g, lines, user, now, draw).order
    ensures forall id :: id in g.groups ==>
              && Fold(g, lines, user, now, draw).groups[id].(members := []) == g.groups[id].(members := [])
              && g.groups[id].members <= Fold(g, lines, user, now, draw).groups[id].members
  {
    if lines != [] {
      FirstRowFixesFamily(g, lines[..|lines| - 1], user, now, draw);
      GroupKeeps(Fold(g, lines[..|lines| - 1], user, now, draw), Cells(lines[|lines| - 1]), user, now, draw);
    }
  }

  // ---------------------------------------------------------------------------
  // round trip
  // ---------------------------------------------------------------------------

  /** A column written without quotes survives `clean` when it has no `;`, newline, surrounding quote or space. */
  predicate Bare(s: string) {
    ';' !in s && '\n' !in s && NoEdgeSpace(s) && (s == [] || (s[0] != '"' && s[|s| - 1] != '"'))
  }

  /** A column written between quotes survives `clean` when it has no `;`, newline or surrounding space. */
  predicate Plain(s: string) {
    ';' !in s && '\n' !in s && NoEdgeSpace(s)
  }

  predicate PortableMember(m: Member) {
    && m.id.Some? && m.id.value > 0
    && Plain(m.firstName) && Plain(m.lastName) && Bare(m.role) && Bare(m.birthDate)
    && Bare(m.gender.GetOr("")) && Bare(m.email.GetOr("")) && Bare(m.phone.GetOr(""))
  }

  /** The family's own columns survive the export. */
  predicate PortableColumns(f: Family) {
    && f.id.Some? && f.id.value > 0
    && Bare(f.membershipNumber) && Plain(f.familyName) && Plain(f.address) && Bare(f.phone)
    && Bare(f.email) && Bare(f.status) && Bare(f.joinDate)
  }

  /** The conditions under which a backup reads back as it was written. */
  ghost predicate Portable(fs: seq<Family>) {
    && (forall j :: 0 <= j < |fs| ==> PortableColumns(fs[j]) && |fs[j].members| >= 1)
    && (forall j, a :: 0 <= j < |fs| && 0 <= a < |fs[j].members| ==> PortableMember(fs[j].members[a]))
    && (forall j, k :: 0 <= j < k < |fs| ==> fs[j].id != fs[k].id)
  }

  /** What the import makes of an exported member: no notes, no family id, empty optionals absent. */
  function ReimportedMember(m: Member): Member {
    Member(m.id, None, m.firstName, m.lastName, m.birthDate, m.role,
           NonEmpty(m.gender.GetOr("")), None, NonEmpty(m.email.GetOr("")), NonEmpty(m.phone.GetOr("")))
  }

  function ReimportedMembers(ms: seq<Member>): (r: seq<Member>)
    ensures |r| == |ms| && forall k :: 0 <= k < |ms| ==> r[k] == ReimportedMember(ms[k])
  {
    seq(|ms|, k requires 0 <= k < |ms| => ReimportedMember(ms[k]))
  }

  /**
   * What the import makes of an exported family: every exported column back,
   * no AI summary and no update stamp, and the import's own audit stamp.
   */
  function Reimported(f: Family, user: string, now: string): Family {
    Family(f.id, f.membershipNumber, f.familyName, f.address, f.phone, f.email, f.joinDate, f.status,
           ReimportedMembers(f.members), None, Some(now), Some("Import CSV (" + user + ")"), None)
  }

  /** Reading a backup of portable families gives every family back, in order. */
  lemma RoundTrip(fs: seq<Family>, user: string, now: string, draw: nat -> int)
    requires Portable(fs)
    ensures ImportText(ExportText(fs), user, now, draw) == ReimportedAll(fs, user, now)
  {
    ExportLines(fs);
    FoldRows(fs, user, now, draw);
    ExpectedPreview(fs, user, now);
  }

  /** The data lines of a backup are the exported rows. */
  lemma ExportLines(fs: seq<Family>)
    requires Portable(fs)
    ensures DataLines(ExportText(fs)) == DataRows(fs)
  {
    HeaderShape();
    RowsShape(fs);
    HeaderDropped(Join(Headers, ';'), DataRows(fs));
  }

  /** Below a one-line, non-blank header, one-line non-blank rows are read back as they are. */
  lemma HeaderDropped(header: string, rows: seq<string>)
    requires OneLine([Bom] + header)
    requires forall k :: 0 <= k < |rows| ==> OneLine(rows[k])
    ensures DataLines([Bom] + Join([header] + rows, '\n')) == rows
  {
    var lines := [[Bom] + header] + rows;
    SplitBackup(header, rows);
    AllPrepend([Bom] + header, rows, OneLine);
    KeepLines(lines);
    assert lines[1..] == rows;
  }

  /** Filtering out blank lines keeps every one of a sequence of non-blank lines. */
  lemma KeepLines(lines: seq<string>)
    requires forall i :: 0 <= i < |lines| ==> OneLine(lines[i])
    ensures Filter(lines, NonBlank) == lines
  {
    FilterAll(lines, NonBlank);
  }

  /** The backup text splits into the header line and the rows. */
  lemma SplitBackup(header: string, rows: seq<string>)
    requires '\n' !in [Bom] + header
    requires forall k :: 0 <= k < |rows| ==> '\n' !in rows[k]
    ensures Split([Bom] + Join([header] + rows, '\n'), '\n') == [[Bom] + header] + rows
  {
    JoinHead([Bom], [header] + rows, '\n');
    assert ([header] + rows)[1..] == rows;
    AllPrepend([Bom] + header, rows, (l: string) => '\n' !in l);
    SplitJoin([[Bom] + header] + rows, '\n');
  }

  lemma HeaderShape()
    ensures OneLine([Bom] + Join(Headers, ';'))
  {
    HeaderFree();
    HeaderFirst();
    BomLine(Join(Headers, ';'));
  }

  lemma HeaderFirst()
    ensures |Join(Headers, ';')| >= 1 && !IsSpace(Join(Headers, ';')[0])
  {
    JoinStart(Headers, ';');
  }

  /** A join begins with the first character of its first piece. */
  lemma JoinStart(ps: seq<string>, sep: char)
    requires |ps| >= 1 && |ps[0]| >= 1
    ensures |Join(ps, sep)| >= 1 && Join(ps, sep)[0] == ps[0][0]
  {
    if |ps| > 1 {
      assert Join(ps, sep) == ps[0] + [sep] + Join(ps[1..], sep);
    }
  }

  /** A one-line text with a visible first character stays one visible line behind the mark. */
  lemma BomLine(header: string)
    requires '\n' !in header && |header| >= 1 && !IsSpace(header[0])
    ensures OneLine([Bom] + header)
  {
    TrimNonEmpty([Bom] + header, 1);
  }

  lemma HeaderFree()
    ensures '\n' !in Join(Headers, ';')
  {
    HeaderColumns();
    JoinFree(Headers, ';', '\n');
  }

  lemma HeaderColumns()
    ensures forall i :: 0 <= i < |Headers| ==> '\n' !in Headers[i]
  {
  }

  /** Every data line of a portable backup is one line and not blank. */
  lemma {:induction false} RowsShape(fs: seq<Family>)
    requires Portable(fs)
    ensures forall k :: 0 <= k < |DataRows(fs)| ==> OneLine(DataRows(fs)[k])
  {
    if fs != [] {
      var n := |fs| - 1;
      PortablePrefix(fs);
      RowsShape(fs[..n]);
      LinesShape(fs[n], fs[n].members);
      AllAppend(DataRows(fs[..n]), FamilyLines(fs[n], fs[n].members), OneLine);
    }
  }

  lemma {:induction false} LinesShape(f: Family, ms: seq<Member>)
    requires PortableColumns(f) && forall a :: 0 <= a < |ms| ==> PortableMember(ms[a])
    ensures forall k :: 0 <= k < |FamilyLines(f, ms)| ==> OneLine(FamilyLines(f, ms)[k])
  {
    if ms != [] {
      var n := |ms| - 1;
      LinesShape(f, ms[..n]);
      RowShape(f, ms[n]);
      AllAppend(FamilyLines(f, ms[..n]), [Join(Row(f, ms[n]), ';')], OneLine);
    }
  }

  /** A portable row is written as one non-blank line. */
  lemma RowShape(f: Family, m: Member)
    requires PortableColumns(f) && PortableMember(m)
    ensures OneLine(Join(Row(f, m), ';'))
  {
    var row := Row(f, m);
    assert |row| == 16 && forall k :: 0 <= k < |row| ==> '\n' !in row[k] by {
      RowColumns(f, m);
    }
    JoinFree(row, ';', '\n');
    JoinHasSep(row, ';');
    TrimNonEmpty(Join(row, ';'), |row[0]|);
  }

  /** The columns `clean` reads back from member `m`'s line of family `f`. */
  function Parsed(f: Family, m: Member): seq<string>
    requires f.id.Some? && m.id.Some?
  {
    ParsedFamily(f) + ParsedMember(m)
  }

  function ParsedFamily(f: Family): seq<string>
    requires f.id.Some?
  {
    [IntToString(f.id.value), f.membershipNumber, f.familyName, f.address, f.phone, f.email,
     f.status, f.joinDate]
  }

  function ParsedMember(m: Member): seq<string>
    requires m.id.Some?
  {
    [IntToString(m.id.value), m.firstName, m.lastName, m.role, m.birthDate,
     m.gender.GetOr(""), m.email.GetOr(""), m.phone.GetOr("")]
  }

  /** A written column holds no `;` or newline and cleans back to `value`. */
  predicate Survives(raw: string, value: string) {
    ';' !in raw && '\n' !in raw && Clean(raw) == value
  }

  /** No column of a portable row holds a `;` or a newline, and each cleans to its value. */
  lemma RowColumns(f: Family, m: Member)
    requires PortableColumns(f) && PortableMember(m)
    ensures |Row(f, m)| == 16
    ensures forall k :: 0 <= k < 16 ==> Survives(Row(f, m)[k], Parsed(f, m)[k])
  {
    FamilyColumnsSurvive(f);
    MemberColumnsSurvive(m);
  }

  lemma FamilyColumnsSurvive(f: Family)
    requires PortableColumns(f)
    ensures |FamilyColumns(f)| == 8
    ensures forall k :: 0 <= k < 8 ==> Survives(FamilyColumns(f)[k], ParsedFamily(f)[k])
  {
    var raw, parsed := FamilyColumns(f), ParsedFamily(f);
    forall k | 0 <= k < 8
      ensures Survives(raw[k], parsed[k])
    {
      if k == 0 {
        NumberColumn(f.id.value);
        BareAt(raw, parsed, k, IntToString(f.id.value));
      } else if k == 1 {
        BareAt(raw, parsed, k, f.membershipNumber);
      } else if k == 2 {
        QuotedAt(raw, parsed, k, f.familyName);
      } else if k == 3 {
        QuotedAt(raw, parsed, k, f.address);
      } else if k == 4 {
        BareAt(raw, parsed, k, f.phone);
      } else if k == 5 {
        BareAt(raw, parsed, k, f.email);
      } else if k == 6 {
        BareAt(raw, parsed, k, f.status);
      } else {
        BareAt(raw, parsed, k, f.joinDate);
      }
    }
  }

  lemma MemberColumnsSurvive(m: Member)
    requires PortableMember(m)
    ensures |MemberColumns(m)| == 8
    ensures forall k :: 0 <= k < 8 ==> Survives(MemberColumns(m)[k], ParsedMember(m)[k])
  {
    var raw, parsed := MemberColumns(m), ParsedMember(m);
    forall k | 0 <= k < 8
      ensures Survives(raw[k], parsed[k])
    {
      if k == 0 {
        NumberColumn(m.id.value);
        BareAt(raw, parsed, k, IntToString(m.id.value));
      } else if k == 1 {
        QuotedAt(raw, parsed, k, m.firstName);
      } else if k == 2 {
        QuotedAt(raw, parsed, k, m.lastName);
      } else if k == 3 {
        BareAt(raw, parsed, k, m.role);
      } else if k == 4 {
        BareAt(raw, parsed, k, m.birthDate);
      } else if k == 5 {
        BareAt(raw, parsed, k, m.gender.GetOr(""));
      } else if k == 6 {
        BareAt(raw, parsed, k, m.email.GetOr(""));
      } else {
        BareAt(raw, parsed, k, m.phone.GetOr(""));
      }
    }
  }

  lemma NumberColumn(n: int)
    ensures Bare(IntToString(n))
  {
    ShowChars(n);
    var s := IntToString(n);
    assert !IsSpace(s[0]) && !IsSpace(s[|s| - 1]);
  }

  /** Column `k` of `raws` is `s` written bare, and reads back as `values[k]`. */
  lemma BareAt(raws: seq<string>, values: seq<string>, k: nat, s: string)
    requires k < |raws| && k < |values| && raws[k] == s && values[k] == s && Bare(s)
    ensures Survives(raws[k], values[k])
  {
    CleanBare(s);
  }

  /** Column `k` of `raws` is `s` written between quotes, and reads back as `values[k]`. */
  lemma QuotedAt(raws: seq<string>, values: seq<string>, k: nat, s: string)
    requires k < |raws| && k < |values| && raws[k] == Quoted(s) && values[k] == s && Plain(s)
    ensures Survives(raws[k], values[k])
  {
    CleanQuoted(s);
  }

  lemma CleanBare(s: string)
    requires Bare(s)
    ensures Survives(s, s)
  {
    TrimIdentity(s);
  }

  lemma CleanQuoted(s: string)
    requires Plain(s)
    ensures Survives(Quoted(s), s)
  {
    UnquoteQuoted(s);
    QuotedFree(s, ';');
    QuotedFree(s, '\n');
    TrimIdentity(s);
  }

  /** Unquoting takes off exactly the quotes the export put around a column. */
  lemma UnquoteQuoted(s: string)
    ensures Unquote(Quoted(s)) == s
  {
    var q := Quoted(s);
    var t := q[1..];
    assert t == s + "\"";
    assert t[..|t| - 1] == s;
  }

  lemma QuotedFree(s: string, c: char)
    requires c != '"' && c !in s
    ensures c !in Quoted(s)
  {
  }

  /** The cleaned columns of a portable line. */
  lemma CellsOfRow(f: Family, m: Member)
    requires PortableColumns(f) && PortableMember(m)
    ensures Cells(Join(Row(f, m), ';')) == Parsed(f, m)
  {
    RowColumns(f, m);
    SplitJoin(Row(f, m), ';');
  }

  /** Reading member `m`'s line of family `f` opens the family if needed and appends the member. */
  lemma StepRow(g: Grouping, f: Family, m: Member, user: string, now: string, draw: nat -> int)
    requires WellFormed(g) && PortableColumns(f) && PortableMember(m)
    ensures var id := f.id.value;
            var g1 := if id in g.groups then g else Open(g, id, Reimported(f, user, now).(members := []));
            Step(g, Join(Row(f, m), ';'), user, now, draw) == Append(g1, id, ReimportedMember(m))
  {
    var cols := Parsed(f, m);
    CellsOfRow(f, m);
    ParseShow(f.id.value);
    ParseShow(m.id.value);
    NumberColumn(m.id.value);
    ParsedRow(f, m, user, now);
    GroupRow(g, cols, f.id.value, m.id.value, user, now, draw);
  }

  /** The family and the member a portable row's cleaned columns describe. */
  lemma ParsedRow(f: Family, m: Member, user: string, now: string)
    requires PortableColumns(f) && PortableMember(m)
    ensures NewFamily(Parsed(f, m), f.id.value, user, now) == Reimported(f, user, now).(members := [])
    ensures NewMember(Parsed(f, m), m.id.value) == ReimportedMember(m)
  {
  }

  /**
   * A row of sixteen cleaned columns `cols`, with non-zero
   * numbers `id` and `mid` in columns 0 and 8, takes no draw, opens family `id`
   * if needed and appends its member.
   */
  lemma GroupRow(g: Grouping, cols: seq<string>, id: int, mid: int,
                 user: string, now: string, draw: nat -> int)
    requires WellFormed(g) && |cols| == 16
    requires ParseNumber(cols[0]) == Some(id) && id != 0
    requires cols[8] != "" && ParseNumber(cols[8]) == Some(mid) && mid != 0
    ensures var g1 := if id in g.groups then g else Open(g, id, NewFamily(cols, id, user, now));
            Group(g, cols, user, now, draw) == Append(g1, id, NewMember(cols, mid))
  {
  }

  /** Reading the lines of members `ms` of a family not seen before yields that family with those members. */
  lemma {:induction false} FoldFamily(g: Grouping, f: Family, ms: seq<Member>, user: string, now: string, draw: nat -> int)
    requires WellFormed(g) && PortableColumns(f) && f.id.value !in g.groups
    requires |ms| >= 1 && forall a :: 0 <= a < |ms| ==> PortableMember(ms[a])
    ensures Fold(g, FamilyLines(f, ms), user, now, draw) ==
              Grouping(g.order + [f.id.value],
                       g.groups[f.id.value := Reimported(f, user, now).(members := ReimportedMembers(ms))], g.draws)
  {
    var n := |ms| - 1;
    var id := f.id.value;
    var lines := FamilyLines(f, ms);
    var empty := Reimported(f, user, now).(members := []);
    assert lines[..n] == FamilyLines(f, ms[..n]);
    if n == 0 {
      StepRow(g, f, ms[0], user, now, draw);
      OpenAppend(g, id, empty, ReimportedMember(ms[0]));
      ReimportedSnoc(ms);
    } else {
      FoldFamily(g, f, ms[..n], user, now, draw);
      var g' := Fold(g, lines[..n], user, now, draw);
      StepRow(g', f, ms[n], user, now, draw);
      AppendAgain(g, id, empty, ReimportedMembers(ms[..n]), ReimportedMember(ms[n]));
      ReimportedSnoc(ms);
    }
  }

  lemma ReimportedSnoc(ms: seq<Member>)
    requires |ms| >= 1
    ensures ReimportedMembers(ms[..|ms| - 1]) + [ReimportedMember(ms[|ms| - 1])] == ReimportedMembers(ms)
  {
  }

  lemma OpenAppend(g: Grouping, id: int, f: Family, m: Member)
    requires WellFormed(g) && id !in g.groups && f.members == []
    ensures Append(Open(g, id, f), id, m) == Grouping(g.order + [id], g.groups[id := f.(members := [m])], g.draws)
  {
    assert f.members + [m] == [m];
    assert g.groups[id := f][id := f.(members := [m])] == g.groups[id := f.(members := [m])];
  }

  lemma AppendAgain(g: Grouping, id: int, f: Family, ms: seq<Member>, m: Member)
    requires WellFormed(g) && id !in g.groups
    ensures var g' := Grouping(g.order + [id], g.groups[id := f.(members := ms)], g.draws);
            WellFormed(g') && id in g'.groups &&
            Append(g', id, m) == Grouping(g.order + [id], g.groups[id := f.(members := ms + [m])], g.draws)
  {
    var g' := Grouping(g.order + [id], g.groups[id := f.(members := ms)], g.draws);
    assert forall x :: x in g'.groups <==> x in g'.order;
  }

  /** The grouping a portable backup's rows should produce. */
  ghost function Expected(fs: seq<Family>, user: string, now: string): (g: Grouping)
    requires Portable(fs)
    ensures WellFormed(g) && g.draws == 0
    ensures |g.order| == |fs| && forall j :: 0 <= j < |fs| ==> g.order[j] == fs[j].id.value
  {
    if fs == [] then Start
    else
      var n := |fs| - 1;
      var e := Expected(fs[..n], user, now);
      var id := fs[n].id.value;
      assert forall j :: 0 <= j < n ==> e.order[j] != id;
      Grouping(e.order + [id], e.groups[id := Reimported(fs[n], user, now)], 0)
  }

  /** Folding the rows of a portable backup yields the expected grouping. */
  lemma {:induction false} FoldRows(fs: seq<Family>, user: string, now: string, draw: nat -> int)
    requires Portable(fs)
    ensures Fold(Start, DataRows(fs), user, now, draw) == Expected(fs, user, now)
  {
    if fs != [] {
      var n := |fs| - 1;
      var f := fs[n];
      PortablePrefix(fs);
      FoldRows(fs[..n], user, now, draw);
      DataRowsSnoc(fs, n);
      assert fs[..n + 1] == fs;
      FoldAppend(Start, DataRows(fs[..n]), FamilyLines(f, f.members), user, now, draw);
      var e := Expected(fs[..n], user, now);
      ExpectedSnoc(fs, user, now);
      FoldFamily(e, f, f.members, user, now, draw);
      assert Reimported(f, user, now).(members := ReimportedMembers(f.members)) == Reimported(f, user, now);
    }
  }

  /** The last family of a portable backup opens a new group after the others. */
  lemma ExpectedSnoc(fs: seq<Family>, user: string, now: string)
    requires Portable(fs) && |fs| >= 1
    ensures var n := |fs| - 1;
            var e := Expected(fs[..n], user, now);
            var f := fs[n];
            && f.id.value !in e.groups
            && Expected(fs, user, now) == Open(e, f.id.value, Reimported(f, user, now))
  {
    var n := |fs| - 1;
    var e := Expected(fs[..n], user, now);
    assert forall j :: 0 <= j < n ==> e.order[j] != fs[n].id.value;
  }

  lemma PortablePrefix(fs: seq<Family>)
    requires Portable(fs) && |fs| >= 1
    ensures Portable(fs[..|fs| - 1])
  {
  }

  /** The expected grouping lists the families in order. */
  lemma {:induction false} ExpectedPreview(fs: seq<Family>, user: string, now: string)
    requires Portable(fs)
    ensures Preview(Expected(fs, user, now)) == ReimportedAll(fs, user, now)
  {
    if fs != [] {
      var n := |fs| - 1;
      PortablePrefix(fs);
      ExpectedPreview(fs[..n], user, now);
      var e := Expected(fs[..n], user, now);
      ExpectedSnoc(fs, user, now);
      PreviewOpen(e, fs[n].id.value, Reimported(fs[n], user, now));
      ReimportedAllSnoc(fs, user, now);
    }
  }

  /** Every family of `fs` as the import reads it back. */
  function ReimportedAll(fs: seq<Family>, user: string, now: string): (r: seq<Family>)
    ensures |r| == |fs| && forall j :: 0 <= j < |fs| ==> r[j] == Reimported(fs[j], user, now)
  {
    seq(|fs|, j requires 0 <= j < |fs| => Reimported(fs[j], user, now))
  }

  lemma ReimportedAllSnoc(fs: seq<Family>, user: string, now: string)
    requires |fs| >= 1
    ensures ReimportedAll(fs, user, now) ==
              ReimportedAll(fs[..|fs| - 1], user, now) + [Reimported(fs[|fs| - 1], user, now)]
  {
  }

  /** Opening a new group adds it at the end of the preview. */
  lemma PreviewOpen(g: Grouping, id: int, f: Family)
    requires WellFormed(g) && id !in g.groups
    ensures Preview(Open(g, id, f)) == Preview(g) + [f]
  {
    var r := Open(g, id, f);
    forall i | 0 <= i < |g.order|
      ensures Preview(r)[i] == Preview(g)[i]
    {
      assert r.order[i] == g.order[i] && g.order[i] in g.groups;
    }
  }


  // ---------------------------------------------------------------------------
  // user administration guards
  // ---------------------------------------------------------------------------

  datatype AddUserOutcome = MissingFields | UsernameTaken | Save(user: User)

  /**
   * `handleAddUser` before the request: every field must be non-empty and the
   * username must not be in the loaded list; the user saved carries the form's
   * fields and no id.
   */
  function AddUser(users: seq<User>, username: string, password: string, name: string, role: AppRole): (r: AddUserOutcome)
    ensures r == MissingFields <==> username == "" || password == "" || name == ""
    ensures r == UsernameTaken <==> username != "" && password != "" && name != ""
                                     && exists k :: 0 <= k < |users| && users[k].username == username
    ensures r.Save? ==> r.user == User(None, username, name, AppRoleLabel(role), Some(password))
  {
    if username == "" || password == "" || name == "" then MissingFields
    else if exists k :: 0 <= k < |users| && users[k].username == username then UsernameTaken
    else Save(User(None, username, name, AppRoleLabel(role), Some(password)))
  }

  /** A saved user never duplicates a username already in the list. */
  lemma AddedUsernameIsNew(users: seq<User>, username: string, password: string, name: string, role: AppRole)
    requires AddUser(users, username, password, name, role).Save?
    ensures Count(users, (u: User) => u.username == username) == 0
  {
    FilterNone(users, (u: User) => u.username == username);
  }

  datatype DeleteUserOutcome = OwnAccount | NoId | Delete(id: int)

  /**
   * `handleDeleteUser` before the confirmation: the signed-in account and an
   * account without a usable id (absent or 0) are never deleted.
   */
  function DeleteUser(current: User, target: User): (r: DeleteUserOutcome)
    ensures r == OwnAccount <==> target.username == current.username
    ensures r.Delete? <==> target.username != current.username && target.id.Some? && target.id.value != 0
    ensures r.Delete? ==> Some(r.id) == target.id
  {
    if target.username == current.username then OwnAccount
    else if target.id.None? || target.id.value == 0 then NoId
    else Delete(target.id.value)
  }
}
