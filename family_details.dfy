/**
 * src/components/FamilyDetails.tsx: the order in which a family's members are
 * listed, the guard in front of deleting the family, and the avatar chosen for
 * a member.
 */
module FamilyDetails {
  import opened Wrappers
  import opened Types
  import opened Seqs
  import opened Ordering

  // ---------------------------------------------------------------------------
  // sortedMembers
  // ---------------------------------------------------------------------------

  /**
   * The comparator as a sort key: non-children first and equal among
   * themselves, then children with a birth date by that date, then children
   * without one.
   */
  function DetailKey(m: Member): (k: Key)
    ensures k.rank == 0 <==> !IsChild(m)
    ensures k.rank == 1 <==> IsChild(m) && m.birthDate != ""
    ensures k.rank == 2 <==> IsChild(m) && m.birthDate == ""
  {
    if !IsChild(m) then Key(0, "")
    else if m.birthDate != "" then Key(1, m.birthDate)
    else Key(2, "")
  }

  /** `[...family.members].sort(...)`. */
  function SortedMembers(ms: seq<Member>): (r: seq<Member>)
    ensures |r| == |ms| && multiset(r) == multiset(ms)
  {
    SortBy(ms, DetailKey)
  }

  predicate NotChild(m: Member) {
    !IsChild(m)
  }

  predicate Dated(m: Member) {
    IsChild(m) && m.birthDate != ""
  }

  predicate Undated(m: Member) {
    IsChild(m) && m.birthDate == ""
  }

  /**
   * The listing puts every non-child before every child and every dated child
   * before every undated one, orders dated children by birth date, and keeps
   * the non-children in their original order.
   */
  lemma SortedMembersOrder(ms: seq<Member>)
    ensures forall i, j :: (0 <= i < |SortedMembers(ms)| && 0 <= j < |SortedMembers(ms)|
              && NotChild(SortedMembers(ms)[i]) && IsChild(SortedMembers(ms)[j])) ==> i < j
    ensures forall i, j :: (0 <= i < |SortedMembers(ms)| && 0 <= j < |SortedMembers(ms)|
              && Dated(SortedMembers(ms)[i]) && Undated(SortedMembers(ms)[j])) ==> i < j
    ensures forall i, j :: (0 <= i < j < |SortedMembers(ms)|
              && Dated(SortedMembers(ms)[i]) && Dated(SortedMembers(ms)[j])) ==>
              StrLe(SortedMembers(ms)[i].birthDate, SortedMembers(ms)[j].birthDate)
    ensures Filter(SortedMembers(ms), NotChild) == Filter(ms, NotChild)
  {
    var r := SortedMembers(ms);
    SortBySorted(ms, DetailKey);
    SortByStable(ms, DetailKey, Key(0, ""));
    WithKeyFilter(r, DetailKey, Key(0, ""), NotChild);
    WithKeyFilter(ms, DetailKey, Key(0, ""), NotChild);
  }

  /** Collecting the elements with one key is filtering by a predicate that holds exactly for that key. */
  lemma {:induction false} WithKeyFilter<T>(s: seq<T>, key: T -> Key, k: Key, p: T -> bool)
    requires forall x :: p(x) <==> key(x) == k
    ensures WithKey(s, key, k) == Filter(s, p)
  {
    if s != [] {
      WithKeyFilter(s[..|s| - 1], key, k, p);
    }
  }

  // ---------------------------------------------------------------------------
  // handleDelete
  // ---------------------------------------------------------------------------

  /** What pressing the delete button leads to. */
  datatype DeleteOutcome =
    | InvalidId                 // the alert about a missing id
    | Kept                      // the confirmation was declined
    | Delegated(id: int)        // `onDelete(familyId)`
    | DeletedAndBack(id: int)   // `deleteFamily(familyId); onBack()`

  /** `handleDelete`, with the answer to the confirmation dialog and whether `onDelete` was passed. */
  function HandleDelete(familyId: Option<int>, confirmed: bool, hasOnDelete: bool): (o: DeleteOutcome)
    ensures o == InvalidId <==> familyId.None? || familyId.value == 0
    ensures familyId.Some? && familyId.value != 0 && !confirmed ==> o == Kept
    ensures (o.Delegated? || o.DeletedAndBack?) <==> familyId.Some? && familyId.value != 0 && confirmed
    ensures o.Delegated? || o.DeletedAndBack? ==> o.id == familyId.value && (o.Delegated? <==> hasOnDelete)
  {
    if familyId.None? || familyId.value == 0 then InvalidId
    else if !confirmed then Kept
    else if hasOnDelete then Delegated(familyId.value)
    else DeletedAndBack(familyId.value)
  }

  // ---------------------------------------------------------------------------
  // MemberIcon
  // ---------------------------------------------------------------------------

  datatype Icon = MaleIcon | FemaleIcon | DefaultIcon

  /** `MemberIcon`: 'H' is male, 'M' is female, anything else, or no gender, the default. */
  function MemberIcon(gender: Option<string>): (icon: Icon)
    ensures icon == MaleIcon <==> gender == Some("H")
    ensures icon == FemaleIcon <==> gender == Some("M")
  {
    if gender == Some("H") then MaleIcon
    else if gender == Some("M") then FemaleIcon
    else DefaultIcon
  }
}
