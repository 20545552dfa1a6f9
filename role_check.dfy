/** src/middleware/roleCheck.js: the route guard built from a list of
    allowed roles. The authenticated user is `None` when no token was
    accepted; the decision reads only the user's role. */
module RoleCheck {
  import opened Common
  import opened Helpers

  const AdminRole: string := "admin"
  const AuthenticationRequired: string := "Authentication required"
  const AccessDenied: string := "Access denied. Insufficient permissions."

  datatype User = User(id: nat, email: string, role: string)

  /** `next()` or a JSON error reply. */
  datatype Decision = Next | Deny(status: int, body: Response<()>)

  function Guard(allowedRoles: seq<string>, user: Option<User>): (d: Decision)
  {
    if user.None? then Deny(401, ErrorResponse(AuthenticationRequired, None))
    else if user.value.role == AdminRole then Next
    else if user.value.role !in allowedRoles then Deny(403, ErrorResponse(AccessDenied, None))
    else Next
  }

  /** 401 without a user; an admin always passes; anyone else passes exactly
      when the role is listed, and is otherwise refused with 403. */
  lemma GuardDecision(allowedRoles: seq<string>, user: Option<User>)
    ensures user.None? <==> Guard(allowedRoles, user) == Deny(401, ErrorResponse(AuthenticationRequired, None))
    ensures user.Some? && user.value.role == AdminRole ==> Guard(allowedRoles, user) == Next
    ensures user.Some? && user.value.role != AdminRole ==>
              (Guard(allowedRoles, user) == Next <==> user.value.role in allowedRoles)
    ensures Guard(allowedRoles, user).Deny? ==> Guard(allowedRoles, user).status in {401, 403}
    ensures Guard(allowedRoles, user) == Deny(403, ErrorResponse(AccessDenied, None)) <==>
              user.Some? && user.value.role != AdminRole && user.value.role !in allowedRoles
  {
  }

  /** Two users with the same role get the same decision. */
  lemma GuardReadsOnlyRole(allowedRoles: seq<string>, u: User, v: User)
    requires u.role == v.role
    ensures Guard(allowedRoles, Some(u)) == Guard(allowedRoles, Some(v))
  {
  }

  /** Listing more roles never refuses anyone who passed before. */
  lemma GuardMonotone(allowedRoles: seq<string>, more: seq<string>, user: Option<User>)
    requires forall r :: r in allowedRoles ==> r in more
    ensures Guard(allowedRoles, user) == Next ==> Guard(more, user) == Next
  {
  }
}
