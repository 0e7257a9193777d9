/** Permission gate: children render only for a user holding the permission. */
module Permission {
  import opened Common
  import opened UserContext

  /** `user && user.permissions.includes(requiredPermission)`. */
  predicate Renders(user: Option<User>, requiredPermission: string)
  {
    user.Some? && requiredPermission in user.value.permissions
  }

  /** Children render iff there is a user and one of its permissions equals the
      required one; with no user nothing renders. */
  lemma RendersIff(user: Option<User>, requiredPermission: string)
    ensures Renders(user, requiredPermission) <==>
      user.Some? && exists i :: 0 <= i < |user.value.permissions| && user.value.permissions[i] == requiredPermission
    ensures user.None? ==> !Renders(user, requiredPermission)
  {
  }

  /** A user without permissions never sees gated children. */
  lemma NoPermissionsNeverRenders(u: User, requiredPermission: string)
    requires u.permissions == []
    ensures !Renders(Some(u), requiredPermission)
  {
  }

  /** The decision depends on the permission list only: two users with the same
      permissions (whatever their roles or other fields) decide alike. */
  lemma OnlyPermissionsMatter(u: User, v: User, requiredPermission: string)
    requires u.permissions == v.permissions
    ensures Renders(Some(u), requiredPermission) == Renders(Some(v), requiredPermission)
  {
  }

  /** The simulated login user may read and write, and nothing else. */
  lemma MockUserPermissions(email: string, userId: string, name: string, machineId: string, p: string)
    ensures Renders(Some(MockUser(email, userId, name, machineId)), p) <==> p == "read" || p == "write"
  {
  }
}
