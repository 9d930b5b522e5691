/** The role guard that protects the inspection and traceability endpoints. */
module RolesGuard {
  import opened Common

  datatype UserRole = Admin | Supervisor | Operator | Viewer

  /** The authenticated user attached to the request; `role` is absent when the
      token carried no recognised role. */
  datatype RequestUser = RequestUser(role: Option<UserRole>)

  /** `RolesGuard.canActivate`. `requiredRoles` is what the reflector found on
      the handler or its class (absent when neither declares roles), `user` is
      the request's user (absent when unauthenticated). */
  function CanActivate(requiredRoles: Option<seq<UserRole>>, user: Option<RequestUser>): (granted: bool)
    ensures requiredRoles.None? || requiredRoles.value == [] ==> granted
    ensures requiredRoles.Some? && requiredRoles.value != [] && user.None? ==> !granted
    ensures requiredRoles.Some? && requiredRoles.value != [] && user.Some? ==>
              (granted <==> exists i :: 0 <= i < |requiredRoles.value| && user.value.role == Some(requiredRoles.value[i]))
  {
    if requiredRoles.None? || |requiredRoles.value| == 0 then true
    else if user.None? then false
    else user.value.role.Some? && user.value.role.value in requiredRoles.value
  }

  /** Listing more roles never locks out a user the shorter list let in. */
  lemma MoreRolesNeverDeny(required: seq<UserRole>, extra: seq<UserRole>, user: Option<RequestUser>)
    requires required != []
    requires CanActivate(Some(required), user)
    ensures CanActivate(Some(required + extra), user)
    ensures CanActivate(Some(extra + required), user)
  {
  }

  /** The decision depends on the set of required roles, not on their order or
      repetition. */
  lemma OnlyTheRoleSetMatters(a: seq<UserRole>, b: seq<UserRole>, user: Option<RequestUser>)
    requires forall x :: x in a <==> x in b
    ensures CanActivate(Some(a), user) == CanActivate(Some(b), user)
  {
    if a != [] {
      assert a[0] in a;
    }
    if b != [] {
      assert b[0] in b;
    }
  }
}
