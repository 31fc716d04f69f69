/**
 * The in-memory data an ability check reads: users with their organization
 * roles, teams and platform admin role; organizations with their ACL;
 * app instances; the Impac! resources; the actions the rule set knows.
 */
module Domain {
  import opened Wrappers

  type OrgId = nat
  type AppInstanceId = nat
  type UserId = nat

  /**
   * An organization's ACL as the API delivers it: `acl[:related][category][capability]`.
   * A key that is absent reads as `nil`.
   */
  type AclMap = map<string, map<string, map<string, bool>>>

  datatype Organization = Organization(id: OrgId, acl: AclMap)

  /** An app instance and the organization that owns it (`app_instance.owner`). */
  datatype AppInstance = AppInstance(id: AppInstanceId, owner: Organization)

  /** A team; `appInstances` is `None` when the association is `nil`. */
  datatype Team = Team(appInstances: Option<seq<AppInstance>>)

  /**
   * A user: the role held in each organization (keyed by organization id),
   * the teams the user belongs to and the platform `admin_role` (`None` is `nil`).
   */
  datatype User = User(roles: map<OrgId, string>, teams: seq<Team>, adminRole: Option<string>)

  /** The session: only `session[:impersonator_user_id]` is read. */
  datatype Session = Session(impersonatorUserId: Option<UserId>)

  /** `MnoEnterprise::User.new`: no role anywhere, no team, no admin role. */
  function NewUser(): User
  {
    User(map[], [], None)
  }

  /** `user ||= MnoEnterprise::User.new`: a missing user becomes a fresh, empty one. */
  function DefaultUser(user: Option<User>): User
  {
    match user
    case Some(given) => given
    case None => NewUser()
  }

  /** The three Impac! resource classes; each names its ACL category. */
  datatype ImpacKind = Dashboard | Widget | Kpi

  /** The three ACL capabilities an Impac! rule can ask for. */
  datatype Capability = CreateCap | UpdateCap | DestroyCap

  /** The ACL category key of a resource class (`:dashboards`, `:widgets`, `:kpis`). */
  function CategoryKey(kind: ImpacKind): string
  {
    match kind
    case Dashboard => "dashboards"
    case Widget => "widgets"
    case Kpi => "kpis"
  }

  /** The ACL capability key (`:create`, `:update`, `:destroy`). */
  function CapabilityKey(cap: Capability): string
  {
    match cap
    case CreateCap => "create"
    case UpdateCap => "update"
    case DestroyCap => "destroy"
  }

  /** Every action symbol the rule set mentions. */
  datatype Action =
    | Create | Read | Update | Destroy | ManageBilling
    | Upload | Purchase | InviteMember | Administrate | ManageAppInstances | ManageTeams
    | SyncApps | CheckAppsSync
    | Access
    | CreateImpacDashboards | UpdateImpacDashboards | DestroyImpacDashboards
    | CreateImpacWidgets | UpdateImpacWidgets | DestroyImpacWidgets
    | CreateImpacKpis | UpdateImpacKpis | DestroyImpacKpis

  /**
   * The object an action is asked about. An Impac! resource carries its
   * `organizations(orgs_with_acl)` method as a function: which of the given
   * organizations it belongs to is computed by code outside this model.
   */
  datatype Resource =
    | OrganizationResource(org: Organization)
    | AppInstanceResource(app: AppInstance)
    | ImpacResource(kind: ImpacKind, organizations: seq<Organization> -> seq<Organization>)

  /** The class a rule is registered for. */
  datatype Subject = OrganizationClass | AppInstanceClass | ImpacClass(kind: ImpacKind)

  function SubjectOf(resource: Resource): Subject
  {
    match resource
    case OrganizationResource(_) => OrganizationClass
    case AppInstanceResource(_) => AppInstanceClass
    case ImpacResource(kind, _) => ImpacClass(kind)
  }

  /** The Impac! action for a (resource class, capability) pair, e.g. `:create_impac_dashboards`. */
  function ImpacActionFor(kind: ImpacKind, cap: Capability): Action
  {
    match (kind, cap)
    case (Dashboard, CreateCap) => CreateImpacDashboards
    case (Dashboard, UpdateCap) => UpdateImpacDashboards
    case (Dashboard, DestroyCap) => DestroyImpacDashboards
    case (Widget, CreateCap) => CreateImpacWidgets
    case (Widget, UpdateCap) => UpdateImpacWidgets
    case (Widget, DestroyCap) => DestroyImpacWidgets
    case (Kpi, CreateCap) => CreateImpacKpis
    case (Kpi, UpdateCap) => UpdateImpacKpis
    case (Kpi, DestroyCap) => DestroyImpacKpis
  }

  /** The inverse: which (resource class, capability) an action gates, if it is an Impac! action. */
  function ImpacSlot(action: Action): (slot: Option<(ImpacKind, Capability)>)
    ensures slot.Some? ==> ImpacActionFor(slot.value.0, slot.value.1) == action
  {
    match action
    case CreateImpacDashboards => Some((Dashboard, CreateCap))
    case UpdateImpacDashboards => Some((Dashboard, UpdateCap))
    case DestroyImpacDashboards => Some((Dashboard, DestroyCap))
    case CreateImpacWidgets => Some((Widget, CreateCap))
    case UpdateImpacWidgets => Some((Widget, UpdateCap))
    case DestroyImpacWidgets => Some((Widget, DestroyCap))
    case CreateImpacKpis => Some((Kpi, CreateCap))
    case UpdateImpacKpis => Some((Kpi, UpdateCap))
    case DestroyImpacKpis => Some((Kpi, DestroyCap))
    case _ => None
  }

  /** Naming an Impac! action and reading its slot back are inverse. */
  lemma ImpacSlotRoundTrip(kind: ImpacKind, cap: Capability)
    ensures ImpacSlot(ImpacActionFor(kind, cap)) == Some((kind, cap))
  {
  }

  /** The ACL keys each of the nine Impac! actions consults. */
  function AclKeysOf(action: Action): Option<(string, string)>
  {
    match ImpacSlot(action)
    case Some((kind, cap)) => Some((CategoryKey(kind), CapabilityKey(cap)))
    case None => None
  }

  /** The three Dashboard actions read the `:dashboards` category, each with the capability its name spells. */
  lemma DashboardActionKeys()
    ensures AclKeysOf(CreateImpacDashboards) == Some(("dashboards", "create"))
    ensures AclKeysOf(UpdateImpacDashboards) == Some(("dashboards", "update"))
    ensures AclKeysOf(DestroyImpacDashboards) == Some(("dashboards", "destroy"))
  {
  }

  /** The three Widget actions read the `:widgets` category, each with the capability its name spells. */
  lemma WidgetActionKeys()
    ensures AclKeysOf(CreateImpacWidgets) == Some(("widgets", "create"))
    ensures AclKeysOf(UpdateImpacWidgets) == Some(("widgets", "update"))
    ensures AclKeysOf(DestroyImpacWidgets) == Some(("widgets", "destroy"))
  {
  }

  /** The three Kpi actions read the `:kpis` category, each with the capability its name spells. */
  lemma KpiActionKeys()
    ensures AclKeysOf(CreateImpacKpis) == Some(("kpis", "create"))
    ensures AclKeysOf(UpdateImpacKpis) == Some(("kpis", "update"))
    ensures AclKeysOf(DestroyImpacKpis) == Some(("kpis", "destroy"))
  {
  }
}
