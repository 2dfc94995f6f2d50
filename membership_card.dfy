/**
 * src/components/MembershipCard.tsx: the texts printed on and around a
 * family's membership card: the member number, the school year, the text of
 * the validation QR code, the two member lists, the download file names and
 * the e-mail that accompanies the card.
 */
module MembershipCard {
  import opened Wrappers
  import opened Types
  import opened Seqs
  import opened Text

  /**
   * `family.membershipNumber || family.id`, as it appears inside a template
   * string: the membership number when it is not empty, otherwise the id, and
   * `undefined` for a family without one.
   */
  function SocioNumber(f: Family): string {
    if f.membershipNumber != "" then f.membershipNumber
    else if f.id.Some? then IntToString(f.id.value)
    else "undefined"
  }

  /** The number shown is the membership number when there is one, and otherwise reads back as the id. */
  lemma SocioNumberSpec(f: Family)
    ensures f.membershipNumber != "" ==> SocioNumber(f) == f.membershipNumber
    ensures f.membershipNumber == "" && f.id.Some? ==> ParseNumber(SocioNumber(f)) == Some(f.id.value)
    ensures f.membershipNumber == "" && f.id.None? ==> SocioNumber(f) == "undefined"
    ensures '\n' !in f.membershipNumber ==> '\n' !in SocioNumber(f)
  {
    if f.membershipNumber == "" && f.id.Some? {
      ParseShow(f.id.value);
      ShowChars(f.id.value);
    }
  }

  /** `${currentYear}-${nextYear}`. */
  function SchoolYear(year: int): string {
    IntToString(year) + "-" + IntToString(year + 1)
  }

  /** For a year of the era, the school year splits at its dash into that year and the next. */
  lemma SchoolYearSpec(year: nat)
    ensures Split(SchoolYear(year), '-') == [IntToString(year), IntToString(year + 1)]
    ensures ParseNumber(Split(SchoolYear(year), '-')[0]) == Some(year)
    ensures ParseNumber(Split(SchoolYear(year), '-')[1]) == Some(year + 1)
    ensures '\n' !in SchoolYear(year)
  {
    var ps := [IntToString(year), IntToString(year + 1)];
    assert Join(ps, '-') == SchoolYear(year) by {
      assert ps[1..] == [IntToString(year + 1)];
    }
    SplitJoin(ps, '-');
    ParseShow(year);
    ParseShow(year + 1);
  }

  /** The four lines of the validation text. */
  function QrLines(f: Family, year: int): seq<string> {
    ["AMPA AGUSTINOS", "Socio: " + SocioNumber(f), f.familyName, "Curso: " + SchoolYear(year)]
  }

  /** `qrValidationText`: the template's four lines, separated by its line breaks. */
  function QrText(f: Family, year: int): string {
    Join(QrLines(f, year), '\n')
  }

  /**
   * The validation text is exactly four lines: the association, the member
   * number, the family name and the school year.
   */
  lemma QrTextLines(f: Family, year: nat)
    requires '\n' !in f.membershipNumber && '\n' !in f.familyName
    ensures Split(QrText(f, year), '\n') == QrLines(f, year)
    ensures |Split(QrText(f, year), '\n')| == 4
  {
    var ls := QrLines(f, year);
    SocioNumberSpec(f);
    SchoolYearSpec(year);
    assert '\n' !in ls[1] && '\n' !in ls[3];
    SplitJoin(ls, '\n');
  }

  /** `parents`: the FATHER, MOTHER and TUTOR members. */
  function Parents(ms: seq<Member>): seq<Member> {
    Filter(ms, IsParent)
  }

  /** `children`: the CHILD members. */
  function Children(ms: seq<Member>): seq<Member> {
    Filter(ms, IsChild)
  }

  /**
   * Each list holds exactly the members of its roles, in the family's order;
   * when every role is one of the four, the two lists together are the family.
   */
  lemma CardGroups(ms: seq<Member>)
    ensures forall m :: m in Parents(ms) <==> m in ms && IsParent(m)
    ensures forall m :: m in Children(ms) <==> m in ms && IsChild(m)
    ensures IsSubseq(Parents(ms), ms) && IsSubseq(Children(ms), ms)
    ensures (forall i :: 0 <= i < |ms| ==> HasKnownRole(ms[i])) ==>
              multiset(Parents(ms)) + multiset(Children(ms)) == multiset(ms)
  {
    FilterMembers(ms, IsParent);
    FilterMembers(ms, IsChild);
    FilterIsSubseq(ms, IsParent);
    FilterIsSubseq(ms, IsChild);
    if forall i :: 0 <= i < |ms| ==> HasKnownRole(ms[i]) {
      forall i | 0 <= i < |ms| ensures IsParent(ms[i]) != IsChild(ms[i]) {
        ParentOrChild(ms[i]);
      }
      FilterPartition(ms, IsParent, IsChild);
    }
  }

  /** `Carnet_AMPA_${socioNumber}.pdf`. */
  function PdfName(socio: string): string {
    "Carnet_AMPA_" + socio + ".pdf"
  }

  /** `Carnet_Movil_Socio_${socioNumber}.jpg`. */
  function PhotoName(socio: string): string {
    "Carnet_Movil_Socio_" + socio + ".jpg"
  }

  /** Both download names carry their fixed prefix and extension around the member number, which can be read back. */
  lemma FileNamesSpec(socio: string)
    ensures IsPrefix("Carnet_AMPA_", PdfName(socio)) && PdfName(socio)[|PdfName(socio)| - 4..] == ".pdf"
    ensures PdfName(socio)[12..|PdfName(socio)| - 4] == socio
    ensures IsPrefix("Carnet_Movil_Socio_", PhotoName(socio)) && PhotoName(socio)[|PhotoName(socio)| - 4..] == ".jpg"
    ensures PhotoName(socio)[19..|PhotoName(socio)| - 4] == socio
  {
  }

  /** One line of `membersList`. */
  function MemberLine(m: Member): string {
    "• " + m.firstName + " " + m.lastName + " (" + m.role + ")"
  }

  function MemberLines(ms: seq<Member>): (ls: seq<string>)
    ensures |ls| == |ms|
  {
    seq(|ms|, i requires 0 <= i < |ms| => MemberLine(ms[i]))
  }

  /** `membersList`: the member lines joined by newlines. */
  function MembersList(ms: seq<Member>): string {
    Join(MemberLines(ms), '\n')
  }

  /** No member field holds a line break. */
  predicate OneLineMember(m: Member) {
    '\n' !in m.firstName && '\n' !in m.lastName && '\n' !in m.role
  }

  /** The list has one line per member, in the family's order, and is empty for a family without members. */
  lemma MembersListLines(ms: seq<Member>)
    requires forall i :: 0 <= i < |ms| ==> OneLineMember(ms[i])
    ensures ms == [] ==> MembersList(ms) == ""
    ensures ms != [] ==> Split(MembersList(ms), '\n') == MemberLines(ms)
    ensures forall i :: 0 <= i < |ms| ==> MemberLines(ms)[i] == MemberLine(ms[i])
  {
    if ms != [] {
      LinesFree(ms);
      SplitJoin(MemberLines(ms), '\n');
    }
  }

  lemma LinesFree(ms: seq<Member>)
    requires forall i :: 0 <= i < |ms| ==> OneLineMember(ms[i])
    ensures forall i :: 0 <= i < |ms| ==> '\n' !in MemberLines(ms)[i]
  {
    forall i | 0 <= i < |ms| ensures '\n' !in MemberLines(ms)[i] {
      var m := ms[i];
      assert MemberLines(ms)[i] == "• " + m.firstName + " " + m.lastName + " (" + m.role + ")";
    }
  }

  /** The e-mail subject. */
  function Subject(f: Family, year: int): string {
    "Carnet Digital AMPA - Curso " + SchoolYear(year) + " - Familia " + f.familyName
  }

  /** The closing line that names the downloaded file. */
  function Reminder(fileName: string): string {
    "* IMPORTANTE: Se ha descargado el archivo \"" + fileName + "\". Por favor, adjúntalo."
  }

  /** The greeting and the heading above the member list. */
  function BodyHead(f: Family): seq<string> {
    ["Estimada " + f.familyName + ",", "", "Adjuntamos su carnet de socio.", "", "INTEGRANTES:"]
  }

  /** The blank line and the reminder below the member list. */
  function BodyFoot(fileName: string): seq<string> {
    ["", Reminder(fileName)]
  }

  /** The e-mail body: the template's lines, with the member list in the middle, separated by its line breaks. */
  function Body(f: Family, fileName: string): string {
    Join(BodyHead(f) + [MembersList(f.members)] + BodyFoot(fileName), '\n')
  }

  /**
   * The body's lines are the greeting, the heading, one line per member (a
   * blank one when there are none), a blank line and the reminder naming the
   * file.
   */
  lemma BodyLines(f: Family, fileName: string)
    requires '\n' !in f.familyName && '\n' !in fileName
    requires forall i :: 0 <= i < |f.members| ==> OneLineMember(f.members[i])
    ensures Split(Body(f, fileName), '\n') ==
              BodyHead(f) + (if f.members == [] then [""] else MemberLines(f.members)) + BodyFoot(fileName)
  {
    var ms := f.members;
    var mid := if ms == [] then [""] else MemberLines(ms);
    var all := BodyHead(f) + mid + BodyFoot(fileName);
    BodyJoin(f, fileName);
    HeadFree(f);
    FootFree(fileName);
    if ms != [] {
      LinesFree(ms);
    }
    PiecesFree(BodyHead(f), mid, BodyFoot(fileName));
    SplitJoin(all, '\n');
  }

  /** The body is the joined lines with the member list's own lines spliced in. */
  lemma BodyJoin(f: Family, fileName: string)
    ensures Body(f, fileName) ==
              Join(BodyHead(f) + (if f.members == [] then [""] else MemberLines(f.members)) + BodyFoot(fileName), '\n')
  {
    var ms := f.members;
    var mid := if ms == [] then [""] else MemberLines(ms);
    var head, foot := BodyHead(f), BodyFoot(fileName);
    assert Join(mid, '\n') == MembersList(ms);
    JoinAppend(head, [MembersList(ms)], '\n');
    JoinAppend(head + [MembersList(ms)], foot, '\n');
    JoinAppend(head, mid, '\n');
    JoinAppend(head + mid, foot, '\n');
  }

  lemma HeadFree(f: Family)
    requires '\n' !in f.familyName
    ensures forall i :: 0 <= i < |BodyHead(f)| ==> '\n' !in BodyHead(f)[i]
  {
    assert '\n' !in "Estimada " && '\n' !in ",";
  }

  lemma FootFree(fileName: string)
    requires '\n' !in fileName
    ensures forall i :: 0 <= i < |BodyFoot(fileName)| ==> '\n' !in BodyFoot(fileName)[i]
  {
    var pre, post := "* IMPORTANTE: Se ha descargado el archivo \"", "\". Por favor, adjúntalo.";
    assert '\n' !in pre && '\n' !in post;
    assert Reminder(fileName) == pre + fileName + post;
  }

  /** Every line of the body is free of line breaks when the family name, the members and the file name are. */
  lemma PiecesFree(head: seq<string>, mid: seq<string>, foot: seq<string>)
    requires forall i :: 0 <= i < |head| ==> '\n' !in head[i]
    requires forall i :: 0 <= i < |mid| ==> '\n' !in mid[i]
    requires forall i :: 0 <= i < |foot| ==> '\n' !in foot[i]
    ensures forall i :: 0 <= i < |head + mid + foot| ==> '\n' !in (head + mid + foot)[i]
  {
  }
}
