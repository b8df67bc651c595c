/** The permission hook: role state, role lookup with fallback, the `hasPermission` lookup
    and the `can` shortcuts. */
module Permissions {
  import opened Common
  import opened AuthTypes

  /** `permissions.some(p => p.action === action && p.resource === resource)`. */
  function AnyMatches(ps: seq<Permission>, a: Action, res: Resource): (b: bool)
    ensures b <==> exists i :: 0 <= i < |ps| && ps[i] == Permission(a, res)
  {
    if ps == [] then false
    else (ps[0].action == a && ps[0].resource == res) || AnyMatches(ps[1..], a, res)
  }

  /** `hasPermission` for a given role. */
  function RoleHasPermission(role: Role, a: Action, res: Resource): bool
  {
    AnyMatches(DefaultRolePermissions(role), a, res)
  }

  /** The lookup answers yes exactly for the pairs in the role's row of the table, which
      are exactly the pairs the policy grants. */
  lemma RoleHasPermissionMeansListed(role: Role, a: Action, res: Resource)
    ensures RoleHasPermission(role, a, res) <==> Permission(a, res) in DefaultRolePermissions(role)
    ensures RoleHasPermission(role, a, res) <==> PolicyGrants(role, Permission(a, res))
  {
    TableMatchesPolicy(role, Permission(a, res));
  }

  /** The members of the `can` object. */
  datatype Shortcut =
    | CreateAlert | ReadAlert | UpdateAlert | DeleteAlert
    | CreateZone | ReadZone | UpdateZone | DeleteZone
    | ManageUsers | ViewAnalytics

  function ShortcutPermission(s: Shortcut): Permission
  {
    match s
    case CreateAlert => Permission(Create, Alerts)
    case ReadAlert => Permission(Read, Alerts)
    case UpdateAlert => Permission(Update, Alerts)
    case DeleteAlert => Permission(Delete, Alerts)
    case CreateZone => Permission(Create, Zones)
    case ReadZone => Permission(Read, Zones)
    case UpdateZone => Permission(Update, Zones)
    case DeleteZone => Permission(Delete, Zones)
    case ManageUsers => Permission(Create, Users)
    case ViewAnalytics => Permission(Read, Analytics)
  }

  function Can(role: Role, s: Shortcut): bool
  {
    RoleHasPermission(role, ShortcutPermission(s).action, ShortcutPermission(s).resource)
  }

  /** `manageUsers` is exactly `create` on `users`, so only admin manages users, while
      `viewAnalytics` holds for every role. */
  lemma ShortcutFacts(role: Role)
    ensures Can(role, ManageUsers) == RoleHasPermission(role, Create, Users)
    ensures Can(role, ManageUsers) <==> role == Admin
    ensures Can(role, ViewAnalytics)
  {
    assert ShortcutPermission(ManageUsers) == Permission(Create, Users);
    assert ShortcutPermission(ViewAnalytics) == Permission(Read, Analytics);
    RoleHasPermissionMeansListed(role, Create, Users);
    RoleHasPermissionMeansListed(role, Read, Analytics);
  }

  /** The result of `supabase.auth.getUser()`. */
  datatype UserLookup = NoUser | SignedIn(id: string) | GetUserThrew

  /** The result of selecting `role` from the user's profile row. */
  datatype ProfileLookup = ProfileRow(role: Option<string>) | NoProfileRow | ProfileThrew

  /** The role adopted after a lookup: a fetched name replaces the current role only when
      it names a role; anything else keeps the current role. */
  function ResolveRole(current: Role, fetched: Option<string>): (r: Role)
    ensures fetched.Some? && ParseRole(fetched.value).Some? ==> RoleName(r) == fetched.value
    ensures (fetched.None? || ParseRole(fetched.value).None?) ==> r == current
  {
    if fetched.Some? && ParseRole(fetched.value).Some? then ParseRole(fetched.value).value else current
  }

  /** The role name the hook stores as written: any truthy (non-empty) `role` string,
      cast to `UserRole` without a check. */
  function StoredRoleAsWritten(current: string, fetched: Option<string>): (r: string)
    ensures fetched.Some? && fetched.value != "" ==> r == fetched.value
    ensures (fetched.None? || fetched.value == "") ==> r == current
  {
    if fetched.Some? && fetched.value != "" then fetched.value else current
  }

  /** `hasPermission` evaluated on a stored role NAME: `DEFAULT_ROLE_PERMISSIONS[name]` is
      undefined for a name that is not a role, and `.some` on it throws (`None`). */
  function HasPermissionByName(name: string, a: Action, res: Resource): (r: Option<bool>)
    ensures r.Some? <==> ParseRole(name).Some?
    ensures r.Some? ==> r.value == RoleHasPermission(ParseRole(name).value, a, res)
  {
    match ParseRole(name)
    case Some(role) => Some(RoleHasPermission(role, a, res))
    case None => None
  }

  /** As written, a profile whose role column holds an unknown name (here "superuser")
      leaves every later permission check throwing. */
  lemma UnknownRoleBreaksLookup()
    ensures HasPermissionByName(StoredRoleAsWritten("viewer", Some("superuser")), Read, Alerts) == None
  {
  }

  /** With `ResolveRole`, every permission check on the stored role succeeds and agrees
      with the table, whatever the profile row holds. */
  lemma ResolvedRoleAlwaysHasTable(current: Role, fetched: Option<string>, a: Action, res: Resource)
    ensures HasPermissionByName(RoleName(ResolveRole(current, fetched)), a, res)
      == Some(RoleHasPermission(ResolveRole(current, fetched), a, res))
  {
    RoleNameRoundTrip(ResolveRole(current, fetched));
  }

  /** The hook's state: `userRole` and `loading`. */
  class PermissionState {
    var userRole: Role
    var loading: bool

    constructor ()
      ensures userRole == Viewer && loading
    {
      userRole := Viewer;
      loading := true;
    }

    function HasPermission(a: Action, res: Resource): bool
      reads this
    {
      RoleHasPermission(userRole, a, res)
    }

    /** `fetchUserRole`: with no signed-in user, or when a lookup throws, the role is kept;
        `loading` is false on every path (the `finally` block). */
    method FetchUserRole(user: UserLookup, profile: ProfileLookup)
      modifies this
      ensures !loading
      ensures (user.NoUser? || user.GetUserThrew?) ==> userRole == old(userRole)
      ensures user.SignedIn? && !profile.ProfileRow? ==> userRole == old(userRole)
      ensures user.SignedIn? && profile.ProfileRow? ==> userRole == ResolveRole(old(userRole), profile.role)
    {
      if user.GetUserThrew? {
        loading := false;
        return;
      }
      if user.NoUser? {
        loading := false;
        return;
      }
      if profile.ProfileRow? {
        userRole := ResolveRole(userRole, profile.role);
      }
      loading := false;
    }
  }
}
