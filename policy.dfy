/**
 * The decision the ability rule set makes, written per resource class and
 * action: `Can(user, orgsWithAcl, action, resource)` is true exactly when one
 * of the registered rules for that action and class grants it; every other
 * pair is denied. `orgsWithAcl` is the visible-organization list the ability
 * was built with. The lemmas state the policy's promises.
 */
module Policy {
  import opened Wrappers
  import opened Domain
  import opened Acl
  import opened Membership

  /** The `:access` rule on an app instance. */
  predicate AppAccess(user: User, app: AppInstance)
  {
    var role := RoleIn(user, app.owner);
    role.Some? && (IsManagerRole(role) || user.teams == [] || app.id in OwnedAppInstanceIds(user.teams))
  }

  /** The Impac! rule for a (resource class, capability) pair, as a parameterised predicate. */
  predicate ImpacGrant(kind: ImpacKind, cap: Capability, organizationsOf: seq<Organization> -> seq<Organization>,
                       orgsWithAcl: seq<Organization>)
  {
    Gate(organizationsOf(orgsWithAcl), CategoryKey(kind), CapabilityKey(cap))
  }

  /** What a role (or its absence) in an organization permits there, by action. */
  predicate OrganizationRoleGrants(role: Option<string>, action: Action)
  {
    match action
    case Create => true
    case Read => role.Some?
    case Update | Destroy | ManageBilling => role == Some(SuperAdmin)
    case Upload | Purchase | InviteMember | Administrate | ManageAppInstances | ManageTeams => IsManagerRole(role)
    case SyncApps | CheckAppsSync => role.Some?
    case _ => false
  }

  predicate Can(user: User, orgsWithAcl: seq<Organization>, action: Action, resource: Resource)
  {
    match resource
    case OrganizationResource(org) =>
      || OrganizationRoleGrants(RoleIn(user, org), action)
      || (action == ManageAppInstances && IsPlatformStaff(user.adminRole))
    case AppInstanceResource(app) =>
      action == Access && AppAccess(user, app)
    case ImpacResource(kind, organizationsOf) =>
      match ImpacSlot(action)
      case Some((slotKind, cap)) => slotKind == kind && ImpacGrant(kind, cap, organizationsOf, orgsWithAcl)
      case None => false
  }

  // ---------------------------------------------------------------- Organization

  /** Anyone may create an organization, including the defaulted empty user. */
  lemma CreateAlwaysAllowed(user: Option<User>, orgsWithAcl: seq<Organization>, org: Organization)
    ensures Can(DefaultUser(user), orgsWithAcl, Create, OrganizationResource(org))
  {
  }

  /** The defaulted empty user can create an organization and do nothing else with one. */
  lemma GuestOnlyCreates(orgsWithAcl: seq<Organization>, action: Action, org: Organization)
    ensures Can(DefaultUser(None), orgsWithAcl, action, OrganizationResource(org)) <==> action == Create
  {
    PlatformStaffShape(None);
  }

  /** Reading an organization needs some role there; any present string, `""` included, is enough. */
  lemma ReadIffRole(user: User, orgsWithAcl: seq<Organization>, org: Organization)
    ensures Can(user, orgsWithAcl, Read, OrganizationResource(org)) <==> org.id in user.roles
  {
  }

  lemma EmptyRoleStringReads(user: User, orgsWithAcl: seq<Organization>, org: Organization)
    requires org.id in user.roles && user.roles[org.id] == ""
    ensures Can(user, orgsWithAcl, Read, OrganizationResource(org))
  {
  }

  /** Update, destroy and billing need exactly `Super Admin`. */
  lemma SuperAdminOnly(user: User, orgsWithAcl: seq<Organization>, org: Organization, action: Action)
    requires action in {Update, Destroy, ManageBilling}
    ensures Can(user, orgsWithAcl, action, OrganizationResource(org))
        <==> org.id in user.roles && user.roles[org.id] == SuperAdmin
  {
  }

  /** The operational bundle needs `Super Admin` or `Admin`, matched exactly. */
  lemma ManagerOnly(user: User, orgsWithAcl: seq<Organization>, org: Organization, action: Action)
    requires action in {Upload, Purchase, InviteMember, Administrate, ManageTeams}
    ensures Can(user, orgsWithAcl, action, OrganizationResource(org))
        <==> org.id in user.roles && user.roles[org.id] in {SuperAdmin, Admin}
  {
  }

  /** `:manage_app_instances`: the role rule or the platform staff rule. */
  lemma ManageAppInstancesIff(user: User, orgsWithAcl: seq<Organization>, org: Organization)
    ensures Can(user, orgsWithAcl, ManageAppInstances, OrganizationResource(org))
        <==> (org.id in user.roles && user.roles[org.id] in {SuperAdmin, Admin}) || IsPlatformStaff(user.adminRole)
  {
  }

  /** The provisional sync rules accept any role at all. */
  lemma SyncNeedsAnyRole(user: User, orgsWithAcl: seq<Organization>, org: Organization, action: Action)
    requires action in {SyncApps, CheckAppsSync}
    ensures Can(user, orgsWithAcl, action, OrganizationResource(org)) <==> org.id in user.roles
  {
  }

  /** The organization actions the rule set registers; anything else on an organization is denied. */
  lemma OrganizationDefaultDeny(user: User, orgsWithAcl: seq<Organization>, org: Organization, action: Action)
    requires action !in {Create, Read, Update, Destroy, ManageBilling, Upload, Purchase, InviteMember,
                         Administrate, ManageAppInstances, ManageTeams, SyncApps, CheckAppsSync}
    ensures !Can(user, orgsWithAcl, action, OrganizationResource(org))
  {
  }

  /** With no role and no staff status, only `:create` is left on an organization. */
  lemma NoRoleOnlyCreates(user: User, orgsWithAcl: seq<Organization>, org: Organization, action: Action)
    requires org.id !in user.roles && !IsPlatformStaff(user.adminRole)
    ensures Can(user, orgsWithAcl, action, OrganizationResource(org)) <==> action == Create
  {
  }

  /** With no role, staff status adds `:manage_app_instances` and nothing more. */
  lemma StaffWithoutRole(user: User, orgsWithAcl: seq<Organization>, org: Organization, action: Action)
    requires org.id !in user.roles && IsPlatformStaff(user.adminRole)
    ensures Can(user, orgsWithAcl, action, OrganizationResource(org)) <==> action in {Create, ManageAppInstances}
  {
  }

  /** The platform admin role changes no decision other than `:manage_app_instances` on an organization. */
  lemma AdminRoleOnlyAffectsManageAppInstances(user: User, adminRole: Option<string>, orgsWithAcl: seq<Organization>,
                                               action: Action, resource: Resource)
    requires action != ManageAppInstances || !resource.OrganizationResource?
    ensures Can(user, orgsWithAcl, action, resource) == Can(user.(adminRole := adminRole), orgsWithAcl, action, resource)
  {
  }

  /** `Super Admin` may do on an organization everything `Admin` may, and more. */
  lemma SuperAdminDominatesAdmin(admin: User, superAdmin: User, orgsWithAcl: seq<Organization>, org: Organization,
                                 action: Action)
    requires org.id in admin.roles && admin.roles[org.id] == Admin
    requires org.id in superAdmin.roles && superAdmin.roles[org.id] == SuperAdmin
    ensures Can(admin, orgsWithAcl, action, OrganizationResource(org))
        ==> Can(superAdmin, orgsWithAcl, action, OrganizationResource(org))
    ensures !Can(admin, orgsWithAcl, Destroy, OrganizationResource(org))
    ensures Can(superAdmin, orgsWithAcl, Destroy, OrganizationResource(org))
  {
  }

  /** An `Admin` may purchase and upload but may not manage billing or destroy. */
  lemma AdminScenario(user: User, orgsWithAcl: seq<Organization>, org: Organization)
    requires org.id in user.roles && user.roles[org.id] == Admin
    ensures Can(user, orgsWithAcl, Purchase, OrganizationResource(org))
    ensures Can(user, orgsWithAcl, Upload, OrganizationResource(org))
    ensures !Can(user, orgsWithAcl, ManageBilling, OrganizationResource(org))
    ensures !Can(user, orgsWithAcl, Destroy, OrganizationResource(org))
  {
  }

  /** Staff status, in any letter case, grants `:manage_app_instances` on every organization. */
  lemma StaffManagesAppInstances(user: User, orgsWithAcl: seq<Organization>, org: Organization)
    requires user.adminRole == Some("Staff") || user.adminRole == Some("ADMIN")
    ensures Can(user, orgsWithAcl, ManageAppInstances, OrganizationResource(org))
  {
    assert Downcase("Staff") == "staff";
    assert Downcase("ADMIN") == "admin";
    assert Downcase("staff") == "staff";
    assert Downcase("admin") == "admin";
  }

  // ---------------------------------------------------------------- AppInstance

  /** `:access` on an app instance, spelled out over the teams. */
  lemma AccessIff(user: User, orgsWithAcl: seq<Organization>, app: AppInstance)
    ensures Can(user, orgsWithAcl, Access, AppInstanceResource(app))
        <==> app.owner.id in user.roles
             && (user.roles[app.owner.id] in {SuperAdmin, Admin}
                 || user.teams == []
                 || SomeTeamOwns(user.teams, app.id))
  {
    OwnedAppInstanceIdsMembership(user.teams, app.id);
  }

  /** A manager of the owner organization sees every app instance, whatever the teams. */
  lemma ManagerAccessesEveryInstance(user: User, orgsWithAcl: seq<Organization>, app: AppInstance)
    requires app.owner.id in user.roles && user.roles[app.owner.id] in {SuperAdmin, Admin}
    ensures Can(user, orgsWithAcl, Access, AppInstanceResource(app))
  {
  }

  /** A member restricted to teams that do not own the instance is denied. */
  lemma TeamRestrictedMemberDenied(user: User, orgsWithAcl: seq<Organization>, app: AppInstance)
    requires app.owner.id in user.roles && user.roles[app.owner.id] !in {SuperAdmin, Admin}
    requires user.teams != [] && !SomeTeamOwns(user.teams, app.id)
    ensures !Can(user, orgsWithAcl, Access, AppInstanceResource(app))
  {
    AccessIff(user, orgsWithAcl, app);
  }

  /** `:access` is the only action registered for app instances, and it needs a role in the owner. */
  lemma AppInstanceDefaultDeny(user: User, orgsWithAcl: seq<Organization>, app: AppInstance, action: Action)
    requires action != Access || app.owner.id !in user.roles
    ensures !Can(user, orgsWithAcl, action, AppInstanceResource(app))
  {
  }

  // ---------------------------------------------------------------- Impac!

  /**
   * Each Impac! action on its own resource class: allowed exactly when the resource
   * resolves to at least one organization and every one of them has the flag set.
   */
  lemma ImpacIff(user: User, orgsWithAcl: seq<Organization>, kind: ImpacKind, cap: Capability,
                 organizationsOf: seq<Organization> -> seq<Organization>)
    ensures var orgs := organizationsOf(orgsWithAcl);
      Can(user, orgsWithAcl, ImpacActionFor(kind, cap), ImpacResource(kind, organizationsOf))
      <==> |orgs| > 0 && forall i :: 0 <= i < |orgs| ==> Flag(orgs[i].acl, CategoryKey(kind), CapabilityKey(cap))
  {
    ImpacSlotRoundTrip(kind, cap);
    AllGrantEvery(organizationsOf(orgsWithAcl), CategoryKey(kind), CapabilityKey(cap));
  }

  /** An Impac! action is denied on every class but its own, and non-Impac! actions are denied on Impac! resources. */
  lemma ImpacDefaultDeny(user: User, orgsWithAcl: seq<Organization>, action: Action, kind: ImpacKind,
                         organizationsOf: seq<Organization> -> seq<Organization>)
    requires ImpacSlot(action).None? || ImpacSlot(action).value.0 != kind
    ensures !Can(user, orgsWithAcl, action, ImpacResource(kind, organizationsOf))
  {
  }

  /** For a fixed visible-organization list, the nine Impac! blocks read neither the user's roles, teams nor admin role. */
  lemma ImpacIgnoresUser(user: User, other: User, orgsWithAcl: seq<Organization>, action: Action, kind: ImpacKind,
                         organizationsOf: seq<Organization> -> seq<Organization>)
    ensures Can(user, orgsWithAcl, action, ImpacResource(kind, organizationsOf))
        == Can(other, orgsWithAcl, action, ImpacResource(kind, organizationsOf))
  {
  }

  /**
   * When a resource resolves only to organizations drawn from the visible list it is given,
   * an Impac! action can be granted only if that list is non-empty.
   */
  lemma ImpacNeedsVisibleOrganization(user: User, orgsWithAcl: seq<Organization>, action: Action, kind: ImpacKind,
                                      organizationsOf: seq<Organization> -> seq<Organization>)
    requires forall org :: org in organizationsOf(orgsWithAcl) ==> org in orgsWithAcl
    ensures Can(user, orgsWithAcl, action, ImpacResource(kind, organizationsOf)) ==> orgsWithAcl != []
  {
    if Can(user, orgsWithAcl, action, ImpacResource(kind, organizationsOf)) {
      assert organizationsOf(orgsWithAcl)[0] in organizationsOf(orgsWithAcl);
    }
  }

  /** A dashboard in two organizations may be created only when both grant `dashboards.create`. */
  lemma TwoOrganizationDashboard(user: User, orgsWithAcl: seq<Organization>, o1: Organization, o2: Organization,
                                 organizationsOf: seq<Organization> -> seq<Organization>)
    requires organizationsOf(orgsWithAcl) == [o1, o2]
    ensures Can(user, orgsWithAcl, CreateImpacDashboards, ImpacResource(Dashboard, organizationsOf))
        <==> Flag(o1.acl, "dashboards", "create") && Flag(o2.acl, "dashboards", "create")
  {
    ImpacIff(user, orgsWithAcl, Dashboard, CreateCap, organizationsOf);
    assert CategoryKey(Dashboard) == "dashboards" && CapabilityKey(CreateCap) == "create";
    var orgs := organizationsOf(orgsWithAcl);
    assert orgs[0] == o1 && orgs[1] == o2;
  }
}
