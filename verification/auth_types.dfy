/** The shared record types of the portal: the four user roles and the
    profile projection that the dashboard displays. */
module AuthTypes {

  /** Presence or absence of a value (a nullable reference on the client). */
  datatype Option<T> = None | Some(value: T)

  /** The four roles a profile can carry. */
  datatype UserRole = Employee | Admin | College | Industry

  /** Every role, in the order the type lists them. */
  const AllRoles: seq<UserRole> := [Employee, Admin, College, Industry]

  /** The wire spelling of a role. */
  function RoleName(r: UserRole): string
  {
    match r
    case Employee => "employee"
    case Admin => "admin"
    case College => "college"
    case Industry => "industry"
  }

  /** Reads a role back from its wire spelling; any other string is not a role. */
  function ParseRole(s: string): (r: Option<UserRole>)
    ensures r.Some? ==> RoleName(r.value) == s
    ensures r.None? ==> forall role: UserRole :: RoleName(role) != s
  {
    if s == "employee" then Some(Employee)
    else if s == "admin" then Some(Admin)
    else if s == "college" then Some(College)
    else if s == "industry" then Some(Industry)
    else None
  }

  /** Spelling a role and reading it back gives the same role. */
  lemma ParseRoleName(r: UserRole)
    ensures ParseRole(RoleName(r)) == Some(r)
  {
  }

  /** AllRoles lists every role exactly once. */
  lemma AllRolesExact()
    ensures |AllRoles| == 4
    ensures forall r: UserRole :: r in AllRoles
    ensures forall i, j :: 0 <= i < j < |AllRoles| ==> AllRoles[i] != AllRoles[j]
  {
    forall r: UserRole
      ensures r in AllRoles
    {
      match r
      case Employee => assert AllRoles[0] == r;
      case Admin => assert AllRoles[1] == r;
      case College => assert AllRoles[2] == r;
      case Industry => assert AllRoles[3] == r;
    }
  }

  /** The profile row as the client sees it. */
  datatype AuthUser = AuthUser(
    id: string,
    email: string,
    name: string,
    surname: string,
    phone: string,
    role: UserRole)

  /** The authenticated identity the provider hands back; only its id is read. */
  datatype Identity = Identity(id: string)
}
