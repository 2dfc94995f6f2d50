/**
 * src/components/FamilyForm.tsx: the form's two pieces of state, the family
 * being edited and the draft of the next member, and the handlers that replace
 * them. The form component is a class whose fields are that state.
 */
module FamilyForm {
  import opened Wrappers
  import opened Types
  import opened Text

  /** The text fields of a family that `updateField` is called with. */
  datatype FamilyField = MembershipNumber | FamilyName | Address | Phone | Email | JoinDate | Status

  /** The value of one text field of a family. */
  function FieldOf(f: Family, field: FamilyField): string {
    match field
    case MembershipNumber => f.membershipNumber
    case FamilyName => f.familyName
    case Address => f.address
    case Phone => f.phone
    case Email => f.email
    case JoinDate => f.joinDate
    case Status => f.status
  }

  /** `{ ...prev, [field]: value }`: the family with one text field replaced. */
  function WithField(f: Family, field: FamilyField, value: string): (g: Family)
    ensures FieldOf(g, field) == value
    ensures forall other :: other != field ==> FieldOf(g, other) == FieldOf(f, other)
    ensures g.id == f.id && g.members == f.members
  {
    match field
    case MembershipNumber => f.(membershipNumber := value)
    case FamilyName => f.(familyName := value)
    case Address => f.(address := value)
    case Phone => f.(phone := value)
    case Email => f.(email := value)
    case JoinDate => f.(joinDate := value)
    case Status => f.(status := value)
  }

  /** The fields of the member draft that `updateMemberField` is called with. */
  datatype MemberField = FirstName | LastName | BirthDate | Role | Gender | Notes | MemberEmail | MemberPhone

  function MemberFieldOf(m: Member, field: MemberField): Option<string> {
    match field
    case FirstName => Some(m.firstName)
    case LastName => Some(m.lastName)
    case BirthDate => Some(m.birthDate)
    case Role => Some(m.role)
    case Gender => m.gender
    case Notes => m.notes
    case MemberEmail => m.email
    case MemberPhone => m.phone
  }

  /** `{ ...prev, [field]: value }` on the member draft. */
  function WithMemberField(m: Member, field: MemberField, value: string): (d: Member)
    ensures MemberFieldOf(d, field) == Some(value)
    ensures forall other :: other != field ==> MemberFieldOf(d, other) == MemberFieldOf(m, other)
    ensures d.id == m.id && d.familyId == m.familyId
  {
    match field
    case FirstName => m.(firstName := value)
    case LastName => m.(lastName := value)
    case BirthDate => m.(birthDate := value)
    case Role => m.(role := value)
    case Gender => m.(gender := Some(value))
    case Notes => m.(notes := Some(value))
    case MemberEmail => m.(email := Some(value))
    case MemberPhone => m.(phone := Some(value))
  }

  /** The blank draft: every text empty and the role CHILD. */
  const EmptyDraft: Member := Member(None, None, "", "", "", "Hijo/a", Some(""), Some(""), Some(""), Some(""))

  /** The family a new form starts from; `today` is the `YYYY-MM-DD` date of the clock. */
  function BlankFamily(today: string): (f: Family)
    ensures f.id.None? && f.membershipNumber == "" && f.members == []
    ensures StatusOfLabel(f.status) == Some(Active)
    ensures f.joinDate == today
  {
    Family(None, "", "", "", "", "", today, "Activo", [], None, None, None, None)
  }

  /** `members.filter((_, i) => i !== index)`. */
  function KeepOthers<T>(s: seq<T>, index: int): (r: seq<T>)
    ensures |r| <= |s|
  {
    if s == [] then []
    else KeepOthers(s[..|s| - 1], index) + (if |s| - 1 != index then [s[|s| - 1]] else [])
  }

  /** Filtering out position `index` removes exactly that position, and nothing when it is out of range. */
  lemma {:induction false} KeepOthersRemoves<T>(s: seq<T>, index: int)
    ensures 0 <= index < |s| ==> KeepOthers(s, index) == s[..index] + s[index + 1..]
    ensures !(0 <= index < |s|) ==> KeepOthers(s, index) == s
  {
    if s != [] {
      var n := |s| - 1;
      var init := s[..n];
      KeepOthersRemoves(init, index);
      assert s == init + [s[n]];
      if index == n {
        assert s[index + 1..] == [];
      } else if 0 <= index < n {
        assert s[..index] == init[..index];
        assert s[index + 1..] == init[index + 1..] + [s[n]];
      }
    }
  }

  /** What holds of every element holds of every element the index filter keeps. */
  lemma {:induction false} KeepOthersAll<T>(s: seq<T>, index: int, p: T -> bool)
    requires forall i :: 0 <= i < |s| ==> p(s[i])
    ensures forall i :: 0 <= i < |KeepOthers(s, index)| ==> p(KeepOthers(s, index)[i])
  {
    if s != [] {
      KeepOthersAll(s[..|s| - 1], index, p);
    }
  }

  /** A name passes the form's check when it holds more than whitespace. */
  predicate Filled(name: string) {
    Trim(name) != ""
  }

  /** A member with a first and a last name. */
  predicate Named(m: Member) {
    Filled(m.firstName) && Filled(m.lastName)
  }

  class Form {
    var family: Family
    var draft: Member

    /** Every member in the local list has a first and a last name. */
    ghost predicate AllNamed()
      reads this
    {
      forall i :: 0 <= i < |family.members| ==> Named(family.members[i])
    }

    /** `initialData || { ... }` for the family and the blank member draft. */
    constructor (initialData: Option<Family>, today: string)
      ensures family == (if initialData.Some? then initialData.value else BlankFamily(today))
      ensures draft == EmptyDraft
    {
      family := if initialData.Some? then initialData.value else BlankFamily(today);
      draft := EmptyDraft;
    }

    /** `updateField`: replaces one text field of the family. */
    method UpdateField(field: FamilyField, value: string)
      modifies this
      ensures family == WithField(old(family), field, value)
      ensures draft == old(draft)
    {
      family := WithField(family, field, value);
    }

    /** `updateMemberField`: replaces one field of the member draft. */
    method UpdateMemberField(field: MemberField, value: string)
      modifies this
      ensures draft == WithMemberField(old(draft), field, value)
      ensures family == old(family)
    {
      draft := WithMemberField(draft, field, value);
    }

    /**
     * `addMemberToLocalList`: a draft without a first or a last name is refused
     * and nothing changes; otherwise the draft is appended with id 0 and the
     * draft is reset.
     */
    method AddMember() returns (added: bool)
      modifies this
      ensures added <==> Filled(old(draft).firstName) && Filled(old(draft).lastName)
      ensures !added ==> family == old(family) && draft == old(draft)
      ensures added ==> family == old(family).(members := old(family).members + [old(draft).(id := Some(0))])
      ensures added ==> draft == EmptyDraft
      ensures old(AllNamed()) ==> AllNamed()
    {
      if Trim(draft.firstName) == "" || Trim(draft.lastName) == "" {
        return false;
      }
      var member := draft.(id := Some(0));
      family := family.(members := family.members + [member]);
      draft := EmptyDraft;
      added := true;
    }

    /** `removeLocalMember`: drops the member at `index`, if there is one. */
    method RemoveLocalMember(index: int)
      modifies this
      ensures family == old(family).(members := KeepOthers(old(family).members, index))
      ensures 0 <= index < |old(family).members| ==>
                family.members == old(family).members[..index] + old(family).members[index + 1..]
      ensures !(0 <= index < |old(family).members|) ==> family == old(family)
      ensures draft == old(draft)
      ensures old(AllNamed()) ==> AllNamed()
    {
      KeepOthersRemoves(family.members, index);
      if AllNamed() {
        KeepOthersAll(family.members, index, Named);
      }
      family := family.(members := KeepOthers(family.members, index));
    }
  }
}
