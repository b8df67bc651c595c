/** Roles, permissions and the fixed role-to-permission table. */
module AuthTypes {
  import opened Common

  datatype Role = Admin | Operator | Viewer
  datatype Action = Create | Read | Update | Delete
  datatype Resource = Alerts | Zones | Users | Analytics
  datatype Permission = Permission(action: Action, resource: Resource)

  function RoleName(r: Role): string
  {
    match r
    case Admin => "admin"
    case Operator => "operator"
    case Viewer => "viewer"
  }

  /** The names that denote a role; any other string is not a `UserRole`. */
  function ParseRole(s: string): (r: Option<Role>)
    ensures r.Some? ==> RoleName(r.value) == s
    ensures r.None? ==> s != "admin" && s != "operator" && s != "viewer"
  {
    if s == "admin" then Some(Admin)
    else if s == "operator" then Some(Operator)
    else if s == "viewer" then Some(Viewer)
    else None
  }

  lemma RoleNameRoundTrip(r: Role)
    ensures ParseRole(RoleName(r)) == Some(r)
  {
  }

  /** `DEFAULT_ROLE_PERMISSIONS`, each list in the order the table lists it. */
  function DefaultRolePermissions(r: Role): seq<Permission>
  {
    match r
    case Admin => [
      Permission(Create, Alerts), Permission(Read, Alerts), Permission(Update, Alerts), Permission(Delete, Alerts),
      Permission(Create, Zones), Permission(Read, Zones), Permission(Update, Zones), Permission(Delete, Zones),
      Permission(Create, Users), Permission(Read, Users), Permission(Update, Users), Permission(Delete, Users),
      Permission(Read, Analytics)]
    case Operator => [
      Permission(Create, Alerts), Permission(Read, Alerts), Permission(Update, Alerts),
      Permission(Read, Zones), Permission(Update, Zones),
      Permission(Read, Analytics)]
    case Viewer => [
      Permission(Read, Alerts), Permission(Read, Zones), Permission(Read, Analytics)]
  }

  /** The policy the table implements, written as a rule per role: admin may do anything
      except write analytics; operator may create, read and update alerts, read and update
      zones and read analytics; viewer may read everything but users. */
  predicate PolicyGrants(r: Role, p: Permission)
  {
    match r
    case Admin => p.resource != Analytics || p.action == Read
    case Operator =>
      || (p.resource == Alerts && p.action != Delete)
      || (p.resource == Zones && (p.action == Read || p.action == Update))
      || p == Permission(Read, Analytics)
    case Viewer => p.action == Read && p.resource != Users
  }

  /** The table lists exactly the permissions the policy grants. */
  lemma TableMatchesPolicy(r: Role, p: Permission)
    ensures p in DefaultRolePermissions(r) <==> PolicyGrants(r, p)
  {
    var ps := DefaultRolePermissions(r);
    if PolicyGrants(r, p) {
      match r
      case Admin =>
        match p.resource {
          case Alerts => assert p == ps[IndexOfAction(p.action)];
          case Zones => assert p == ps[4 + IndexOfAction(p.action)];
          case Users => assert p == ps[8 + IndexOfAction(p.action)];
          case Analytics => assert p == ps[12];
        }
      case Operator =>
        if p.resource == Alerts {
          assert p == ps[IndexOfAction(p.action)];
        } else if p.resource == Zones {
          assert p == ps[if p.action == Read then 3 else 4];
        } else {
          assert p == ps[5];
        }
      case Viewer =>
        assert p == ps[if p.resource == Alerts then 0 else if p.resource == Zones then 1 else 2];
    }
  }

  function IndexOfAction(a: Action): nat
  {
    match a
    case Create => 0
    case Read => 1
    case Update => 2
    case Delete => 3
  }

  /** Every operator permission is an admin permission. */
  lemma OperatorWithinAdmin(p: Permission)
    requires p in DefaultRolePermissions(Operator)
    ensures p in DefaultRolePermissions(Admin)
  {
    TableMatchesPolicy(Operator, p);
    TableMatchesPolicy(Admin, p);
  }

  /** Every viewer permission is an operator permission. */
  lemma ViewerWithinOperator(p: Permission)
    requires p in DefaultRolePermissions(Viewer)
    ensures p in DefaultRolePermissions(Operator)
  {
    TableMatchesPolicy(Viewer, p);
    TableMatchesPolicy(Operator, p);
  }

  /** Admin holds every action on alerts, zones and users, and reads analytics. */
  lemma AdminHoldsAllManagedActions(a: Action, res: Resource)
    requires res != Analytics
    ensures Permission(a, res) in DefaultRolePermissions(Admin)
    ensures Permission(Read, Analytics) in DefaultRolePermissions(Admin)
  {
    TableMatchesPolicy(Admin, Permission(a, res));
    TableMatchesPolicy(Admin, Permission(Read, Analytics));
  }

  /** Every role reads analytics, and no role creates, updates or deletes analytics. */
  lemma AnalyticsReadOnlyForAll(r: Role, a: Action)
    ensures Permission(Read, Analytics) in DefaultRolePermissions(r)
    ensures a != Read ==> Permission(a, Analytics) !in DefaultRolePermissions(r)
  {
    TableMatchesPolicy(r, Permission(Read, Analytics));
    TableMatchesPolicy(r, Permission(a, Analytics));
  }

  /** Only admin holds a `delete` permission or any permission on `users`. */
  lemma OnlyAdminDeletesOrManagesUsers(r: Role, p: Permission)
    requires p in DefaultRolePermissions(r)
    requires p.action == Delete || p.resource == Users
    ensures r == Admin
  {
    TableMatchesPolicy(r, p);
  }

  /** A viewer holds only `read` permissions. */
  lemma ViewerOnlyReads(p: Permission)
    requires p in DefaultRolePermissions(Viewer)
    ensures p.action == Read
  {
    TableMatchesPolicy(Viewer, p);
  }
}
