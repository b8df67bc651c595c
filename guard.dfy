/** `withPermissions`: the all-permissions check and the redirect decision gated on `loading`. */
module PermissionGuard {
  import opened Common
  import opened AuthTypes
  import opened Permissions

  /** `requiredPermissions.every(({action, resource}) => hasPermission(action, resource))`. */
  function HasAll(role: Role, reqs: seq<Permission>): (b: bool)
    ensures b <==> forall i :: 0 <= i < |reqs| ==> RoleHasPermission(role, reqs[i].action, reqs[i].resource)
  {
    if reqs == [] then true
    else RoleHasPermission(role, reqs[0].action, reqs[0].resource) && HasAll(role, reqs[1..])
  }

  datatype View = Spinner | Wrapped

  /** What the protected component shows, and where its effect redirects, if anywhere. */
  datatype GuardResult = GuardResult(view: View, redirect: Option<string>)

  function Guard(loading: bool, role: Role, reqs: seq<Permission>): (g: GuardResult)
    ensures loading ==> g == GuardResult(Spinner, None)
    ensures !loading ==> g.view == Wrapped
    ensures g.redirect.Some? ==> g.redirect.value == "/unauthorized"
    ensures g.redirect.Some? <==>
      !loading && exists i :: 0 <= i < |reqs| && !RoleHasPermission(role, reqs[i].action, reqs[i].resource)
  {
    if loading then GuardResult(Spinner, None)
    else GuardResult(Wrapped, if HasAll(role, reqs) then None else Some("/unauthorized"))
  }

  /** An empty requirement list never redirects. */
  lemma EmptyRequirementsNeverRedirect(loading: bool, role: Role)
    ensures Guard(loading, role, []).redirect == None
  {
  }

  /** Requiring more can only turn "allowed" into "redirect": if every permission of `reqs`
      is also required by `more`, a role allowed by `more` is allowed by `reqs`. */
  lemma MoreRequirementsOnlyDeny(loading: bool, role: Role, reqs: seq<Permission>, more: seq<Permission>)
    requires forall p :: p in reqs ==> p in more
    ensures Guard(loading, role, more).redirect == None ==> Guard(loading, role, reqs).redirect == None
  {
    if !loading && HasAll(role, more) {
      forall i | 0 <= i < |reqs| ensures RoleHasPermission(role, reqs[i].action, reqs[i].resource) {
        assert reqs[i] in more;
        var j :| 0 <= j < |more| && more[j] == reqs[i];
      }
    }
  }

  /** An admin is never redirected, whatever is required except writes to analytics. */
  lemma AdminPassesUnlessAnalyticsWrite(reqs: seq<Permission>)
    requires forall i :: 0 <= i < |reqs| ==> reqs[i].resource != Analytics || reqs[i].action == Read
    ensures Guard(false, Admin, reqs).redirect == None
  {
    forall i | 0 <= i < |reqs| ensures RoleHasPermission(Admin, reqs[i].action, reqs[i].resource) {
      RoleHasPermissionMeansListed(Admin, reqs[i].action, reqs[i].resource);
    }
  }
}
