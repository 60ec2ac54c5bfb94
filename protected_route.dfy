/** The access guard of src/routes/ProtectedRoute.tsx: a route element that
    sends a visitor who is not signed in to the login page, one whose role is
    not among the required roles to the forbidden page, and renders the
    nested route otherwise. It reads `isAuthenticated` and `user` from the
    second session controller (module AuthContextPlain). */
module ProtectedRoute {
  import opened Wrappers
  import opened Entities
  import AuthContextPlain

  datatype Decision = ToLogin | ToForbidden | Allow

  /** `requiredRoles.includes(user.role)`: an absent role is never listed. */
  predicate Listed(roles: seq<string>, role: Option<string>) {
    role.Some? && role.value in roles
  }

  /** The guard. `requiredRoles` is `None` when the prop is not given; any
      given array, even an empty one, is truthy. */
  function Authorize(isAuthenticated: bool, user: Option<User>, requiredRoles: Option<seq<string>>): (d: Decision)
    ensures d == ToLogin <==> !isAuthenticated
    ensures d == ToForbidden <==>
      isAuthenticated && requiredRoles.Some? && user.Some? && !Listed(requiredRoles.value, user.value.role)
  {
    if !isAuthenticated then ToLogin
    else if requiredRoles.Some? && user.Some? && !Listed(requiredRoles.value, user.value.role) then ToForbidden
    else Allow
  }

  /** Without required roles every signed-in visitor passes. */
  lemma NoRolesAllows(isAuthenticated: bool, user: Option<User>)
    requires isAuthenticated
    ensures Authorize(isAuthenticated, user, None) == Allow
  {
  }

  /** An empty role list forbids every signed-in user. */
  lemma EmptyRolesForbid(u: User)
    ensures Authorize(true, Some(u), Some([])) == ToForbidden
  {
  }

  /** Required roles are compared exactly: a lower-case "admin" role does not
      satisfy a route that requires "ADMIN". */
  lemma RoleMatchIsCaseSensitive(u: User)
    requires u.role == Some("admin")
    ensures Authorize(true, Some(u), Some(["ADMIN"])) == ToForbidden
  {
    assert "admin" != "ADMIN" by {
      assert "admin"[0] != "ADMIN"[0];
    }
  }

  /** Listing more roles never turns an admitted user away. */
  lemma MoreRolesNeverRevoke(isAuthenticated: bool, user: Option<User>, roles: seq<string>, more: seq<string>)
    requires Authorize(isAuthenticated, user, Some(roles)) == Allow
    ensures Authorize(isAuthenticated, user, Some(roles + more)) == Allow
  {
    if isAuthenticated && user.Some? {
      assert user.value.role.value in roles + more;
    }
  }

  /** Fed from the session controller, the guard lets a visitor through iff a
      user is loaded and, when roles are required, the user's role is one of
      them. A session that is still being restored has no user yet, so it is
      sent to the login page. */
  lemma GuardOverSession(user: Option<User>, requiredRoles: Option<seq<string>>)
    ensures Authorize(AuthContextPlain.IsAuthenticated(user), user, requiredRoles) == Allow <==>
      user.Some? && (requiredRoles.None? || Listed(requiredRoles.value, user.value.role))
    ensures user.None? ==> Authorize(AuthContextPlain.IsAuthenticated(user), user, requiredRoles) == ToLogin
  {
  }
}
