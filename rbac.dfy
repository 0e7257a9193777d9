/** Role-based gate: children render only for a user whose role is allowed. */
module Rbac {
  import opened Common
  import opened UserContext

  /** `user && allowedRoles.includes(user.role)`. */
  predicate Renders(user: Option<User>, allowedRoles: seq<string>)
  {
    user.Some? && user.value.role in allowedRoles
  }

  /** Children render iff there is a user and some listed role equals its role;
      with no user nothing renders. */
  lemma RendersIff(user: Option<User>, allowedRoles: seq<string>)
    ensures Renders(user, allowedRoles) <==>
      user.Some? && exists i :: 0 <= i < |allowedRoles| && allowedRoles[i] == user.value.role
    ensures user.None? ==> !Renders(user, allowedRoles)
  {
    if Renders(user, allowedRoles) {
      var i :| 0 <= i < |allowedRoles| && allowedRoles[i] == user.value.role;
    }
  }

  /** An empty role list never renders. */
  lemma EmptyNeverRenders(user: Option<User>)
    ensures !Renders(user, [])
  {
  }

  /** Adding roles never hides children already shown. */
  lemma {:induction false} MoreRolesMonotone(user: Option<User>, allowedRoles: seq<string>, extra: seq<string>)
    requires Renders(user, allowedRoles)
    ensures Renders(user, allowedRoles + extra)
    ensures Renders(user, extra + allowedRoles)
  {
    var i :| 0 <= i < |allowedRoles| && allowedRoles[i] == user.value.role;
    assert (allowedRoles + extra)[i] == user.value.role;
    assert (extra + allowedRoles)[|extra| + i] == user.value.role;
  }

  /** The simulated login user has the "admin" role. */
  lemma MockUserIsAdmin(email: string, userId: string, name: string, machineId: string)
    ensures Renders(Some(MockUser(email, userId, name, machineId)), ["admin"])
  {
  }
}
