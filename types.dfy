/**
 * The application's value types (src/types.ts). The three enums are string
 * enums: at run time a record holds the label string, and nothing stops other
 * text from reaching a record (the CSV import casts raw columns). The records
 * therefore keep `role` and `status` as strings, and each enum comes with its
 * labels and the partial map back from a label.
 */
module Types {
  import opened Wrappers

  datatype Role = Father | Mother | Child | Tutor

  function RoleLabel(r: Role): string {
    match r
    case Father => "Padre"
    case Mother => "Madre"
    case Child => "Hijo/a"
    case Tutor => "Tutor"
  }

  /** The role a label names, if any. */
  function RoleOfLabel(s: string): (r: Option<Role>)
    ensures r.Some? ==> RoleLabel(r.value) == s
    ensures r.None? ==> forall x: Role :: RoleLabel(x) != s
  {
    if s == "Padre" then Some(Father)
    else if s == "Madre" then Some(Mother)
    else if s == "Hijo/a" then Some(Child)
    else if s == "Tutor" then Some(Tutor)
    else None
  }

  /** Distinct roles have distinct labels, so a label identifies its role. */
  lemma RoleLabelRoundTrip(r: Role)
    ensures RoleOfLabel(RoleLabel(r)) == Some(r)
  {
  }

  datatype FamilyStatus = Active | Inactive

  function StatusLabel(s: FamilyStatus): string {
    match s
    case Active => "Activo"
    case Inactive => "Baja"
  }

  function StatusOfLabel(s: string): (r: Option<FamilyStatus>)
    ensures r.Some? ==> StatusLabel(r.value) == s
    ensures r.None? ==> forall x: FamilyStatus :: StatusLabel(x) != s
  {
    if s == "Activo" then Some(Active) else if s == "Baja" then Some(Inactive) else None
  }

  datatype AppRole = SuperAdmin | Admin | UserRole

  function AppRoleLabel(r: AppRole): string {
    match r
    case SuperAdmin => "SUPERADMIN"
    case Admin => "ADMIN"
    case UserRole => "USER"
  }

  function AppRoleOfLabel(s: string): (r: Option<AppRole>)
    ensures r.Some? ==> AppRoleLabel(r.value) == s
    ensures r.None? ==> forall x: AppRole :: AppRoleLabel(x) != s
  {
    if s == "SUPERADMIN" then Some(SuperAdmin)
    else if s == "ADMIN" then Some(Admin)
    else if s == "USER" then Some(UserRole)
    else None
  }

  /** An application account as the client sees it; `id` is absent before it is stored. */
  datatype User = User(id: Option<int>, username: string, name: string, role: string, password: Option<string>)

  /** A member of a family; `birthDate` is YYYY-MM-DD text, empty when unknown. */
  datatype Member = Member(
    id: Option<int>, familyId: Option<int>,
    firstName: string, lastName: string, birthDate: string, role: string,
    gender: Option<string>, notes: Option<string>, email: Option<string>, phone: Option<string>)

  /** A family with its ordered members and optional audit fields. */
  datatype Family = Family(
    id: Option<int>, membershipNumber: string, familyName: string, address: string,
    phone: string, email: string, joinDate: string, status: string, members: seq<Member>,
    aiSummary: Option<string>, createdAt: Option<string>, createdBy: Option<string>, updatedAt: Option<string>)

  predicate IsChild(m: Member) {
    m.role == RoleLabel(Child)
  }

  /** FATHER, MOTHER or TUTOR. */
  predicate IsParent(m: Member) {
    m.role == RoleLabel(Father) || m.role == RoleLabel(Mother) || m.role == RoleLabel(Tutor)
  }

  /** The member's role is one of the four labels. */
  predicate HasKnownRole(m: Member) {
    RoleOfLabel(m.role).Some?
  }

  /** A known role is either a parent role or the child role, never both. */
  lemma ParentOrChild(m: Member)
    requires HasKnownRole(m)
    ensures IsParent(m) != IsChild(m)
  {
  }
}
