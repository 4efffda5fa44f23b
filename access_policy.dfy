/**
 * The route guard: a login check, then an optional role-membership check.
 * The same rule, with the single role ADMIN, gates the pages' admin-only controls.
 */
module AccessPolicy {
  import opened Outcomes
  import opened Sessions

  const LoginPath: string := "/"
  const ForbiddenPath: string := "/forbidden"

  /** What the guard renders: its children, or a redirect to a path. */
  datatype Decision = Allow | Redirect(target: string)

  /**
   * The guard. `roles` is None when the route gives no role list; a given list,
   * even an empty one, is a list the role must belong to.
   */
  function Authorize(user: Option<Session>, roles: Option<seq<string>>): (d: Decision)
    ensures d == Allow <==> user.Some? && (roles.None? || user.value.role in roles.value)
    ensures user.None? ==> d == Redirect(LoginPath)
    ensures user.Some? && d != Allow ==> d == Redirect(ForbiddenPath)
  {
    if user.None? then Redirect(LoginPath)
    else if roles.Some? && user.value.role !in roles.value then Redirect(ForbiddenPath)
    else Allow
  }

  /**
   * The pages' `isAdmin`, which gates the create, edit, delete and export
   * controls: a present user whose role is ADMIN. It is the guard with the
   * role list [ADMIN].
   */
  predicate IsAdmin(user: Option<Session>)
    ensures IsAdmin(user) <==> Authorize(user, Some([Admin])) == Allow
  {
    user.Some? && user.value.role == Admin
  }

  /** The login check comes first: an anonymous caller is never sent to the forbidden view. */
  lemma AnonymousNeverForbidden(roles: Option<seq<string>>)
    ensures Authorize(None, roles) == Redirect(LoginPath)
    ensures Authorize(None, roles) != Redirect(ForbiddenPath)
  {
  }

  /** Without a role list the guard lets in exactly the callers with a session. */
  lemma NoRolesAllowsExactlySessions(user: Option<Session>)
    ensures Authorize(user, None) == Allow <==> user.Some?
  {
  }

  /** An empty role list (still truthy) forbids every session. */
  lemma EmptyRolesForbidEveryone(s: Session)
    ensures Authorize(Some(s), Some([])) == Redirect(ForbiddenPath)
  {
  }

  /** Widening the role list never takes access away. */
  lemma WiderRolesAllowMore(user: Option<Session>, roles: seq<string>, wider: seq<string>)
    requires forall r | r in roles :: r in wider
    requires Authorize(user, Some(roles)) == Allow
    ensures Authorize(user, Some(wider)) == Allow
  {
  }
}
