/**
 * The six user roles (`UserRole` without its `null` member) and the path
 * segment that names each role's workspace.
 */
module Roles {
  import opened Wrappers

  datatype Role = Patient | Doctor | Staff | Lab | Pharmacy | Admin

  /** The roles in the order the `UserRole` type lists them. */
  const All: seq<Role> := [Patient, Doctor, Staff, Lab, Pharmacy, Admin]

  /** The role's string value, which is also its workspace's path segment. */
  function Name(r: Role): string
  {
    match r
    case Patient => "patient"
    case Doctor => "doctor"
    case Staff => "staff"
    case Lab => "lab"
    case Pharmacy => "pharmacy"
    case Admin => "admin"
  }

  /** The role a path segment names, if any. */
  function Parse(segment: string): (r: Option<Role>)
    ensures forall role :: r == Some(role) <==> Name(role) == segment
  {
    if segment == "patient" then Some(Patient)
    else if segment == "doctor" then Some(Doctor)
    else if segment == "staff" then Some(Staff)
    else if segment == "lab" then Some(Lab)
    else if segment == "pharmacy" then Some(Pharmacy)
    else if segment == "admin" then Some(Admin)
    else None
  }

  /** Distinct roles have distinct names. */
  lemma NameInjective(r1: Role, r2: Role)
    ensures Name(r1) == Name(r2) ==> r1 == r2
  {
    var p := Parse(Name(r1));
  }

  /** Every role appears in `All`, exactly once. */
  lemma AllRoles(r: Role)
    ensures r in All
    ensures forall i, j :: 0 <= i < j < |All| ==> All[i] != All[j]
  {
  }
}
