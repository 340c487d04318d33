/** The permission flags a screen derives from the signed-in user: nothing
    without a user, everything for an administrator, otherwise what the
    user's permission map lists for the screen's path. */
module Access {
  import opened Base
  import opened Domain

  /** A user's permissions: for each screen path, the granted actions. */
  type Permissions = map<string, seq<Action>>

  /** The signed-in user as the session keeps it. */
  datatype SessionUser = SessionUser(id: string, role: Role, permissions: Option<Permissions>)

  datatype Flags = Flags(canView: bool, canCreate: bool, canEdit: bool, canDelete: bool)

  /** `user.permissions?.[resource] || []`. */
  function ActionsFor(permissions: Option<Permissions>, resource: string): (acts: seq<Action>)
    ensures permissions.None? || resource !in permissions.value ==> acts == []
    ensures permissions.Some? && resource in permissions.value ==> acts == permissions.value[resource]
  {
    if permissions.Some? && resource in permissions.value then permissions.value[resource] else []
  }

  function UsePermissions(user: Option<SessionUser>, resource: string): Flags {
    match user
    case None => Flags(false, false, false, false)
    case Some(u) =>
      if u.role == Admin then Flags(true, true, true, true)
      else
        var acts := ActionsFor(u.permissions, resource);
        Flags(View in acts, Create in acts, Edit in acts, Delete in acts)
  }

  /** Whether the flags grant an action. */
  function Grants(f: Flags, a: Action): bool {
    match a
    case View => f.canView
    case Create => f.canCreate
    case Edit => f.canEdit
    case Delete => f.canDelete
  }

  /** No user: every flag is off. An administrator: every flag is on,
      whatever the map says. Anyone else: a flag is on exactly when the
      action is listed for the path, a missing entry listing nothing. */
  lemma {:induction false} UsePermissionsSpec(user: Option<SessionUser>, resource: string, a: Action)
    ensures user.None? ==> !Grants(UsePermissions(user, resource), a)
    ensures user.Some? && user.value.role == Admin ==> Grants(UsePermissions(user, resource), a)
    ensures user.Some? && user.value.role != Admin ==>
      (Grants(UsePermissions(user, resource), a) <==>
         user.value.permissions.Some? && resource in user.value.permissions.value &&
         a in user.value.permissions.value[resource])
  {
  }

  /** One path's flags do not depend on any other path's entry. */
  lemma {:induction false} FlagsArePerPath(u: SessionUser, resource: string, other: string, acts: seq<Action>)
    requires other != resource
    ensures var p := if u.permissions.Some? then u.permissions.value else map[];
      UsePermissions(Some(u.(permissions := Some(p[other := acts]))), resource) ==
      UsePermissions(Some(u), resource)
  {
    var p := if u.permissions.Some? then u.permissions.value else map[];
    assert ActionsFor(Some(p[other := acts]), resource) == ActionsFor(u.permissions, resource);
  }
}
