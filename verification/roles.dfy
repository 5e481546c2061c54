/** The four kinds of user the role-selection screen offers. */
module Roles {

  datatype UserRole = Student | Faculty | Staff | Visitor

  /** The string stored in a profile's `role` field. */
  function RoleName(role: UserRole): (s: string)
    ensures s != []
  {
    match role
    case Student => "student"
    case Faculty => "faculty"
    case Staff => "staff"
    case Visitor => "visitor"
  }

  /** Distinct roles are stored under distinct names. */
  lemma RoleNameInjective(a: UserRole, b: UserRole)
    ensures RoleName(a) == RoleName(b) ==> a == b
  {
  }
}
