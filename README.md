# mno-enterprise ability rules, modelled in Dafny

This project models the authorization rule set of mno-enterprise's `Ability`
(`core/lib/mno_enterprise/concerns/models/ability.rb`). An ability is built for
one user and one session. It registers CanCan rules one `can` call at a time,
then answers `can?(action, resource)`. The answer is the OR of every registered
rule whose actions and class match, and deny when none matches.

The rules read only in-memory data:
- the user's role string in an organization, or no role (`nil`);
- the user's teams and the app instances each team owns;
- the platform `admin_role`, compared case-insensitively with `admin` and `staff`;
- each organization's nested ACL, `acl[:related][category][capability]`, where a missing level means deny.

Modules:
- `Wrappers` (`wrappers.dfy`): `Option`, and `Get`, which is Ruby's `hash[key]`.
- `Domain` (`domain.dfy`): users, organizations, app instances, teams and the session. Also the 23 action symbols, the resource classes and the map between the nine Impac! actions and their (category, capability) pairs.
- `Acl` (`acl.dfy`): the optional-chaining flag lookup, and the `orgs.present? && orgs.all?` gate shared by the nine Impac! rules.
- `Membership` (`membership.dfy`): `user.role(organization)`, the flattened team app-instance ids, and Ruby's ASCII-only `casecmp`.
- `Policy` (`policy.dfy`): `Can(user, orgsWithAcl, action, resource)`, the decision written per resource class and action, with the policy's promises as lemmas.
- `Rules` (`rules.dfy`): the rule table as data. `AnyGrants` is CanCan's OR with default deny. The lemmas prove that the table `initialize` builds decides every check exactly as `Can` does.
- `Ability` (`ability.dfy`): the `Ability` class. Its constructor registers the rules step by step, in the source's order, through `Grant`, `ImpacAbilities` and `AdminAbilities`. `Allows` answers from the table and is proved equal to `Can`.

Two inputs come from code outside the model, so the model takes them as parameters:
- the visible-organization list `user.organizations.active.include_acl(session[:impersonator_user_id])`. The constructor takes it as a function of the user and the impersonator id.
- `Dashboard/Widget/Kpi#organizations(orgs_with_acl)`. An Impac! resource carries it as a function field.

## Model

| member | source | states |
|---|---|---|
| `Domain.ImpacSlot` | core/lib/mno_enterprise/concerns/models/ability.rb:88-150 | reading back an Impac! action's (class, capability) slot and naming the action for that slot give the action again |
| `Domain.DashboardActionKeys` | core/lib/mno_enterprise/concerns/models/ability.rb:89-108 | `:create/:update/:destroy_impac_dashboards` read `dashboards` with `create`, `update`, `destroy` |
| `Domain.WidgetActionKeys` | core/lib/mno_enterprise/concerns/models/ability.rb:110-129 | the three widget actions read `widgets` with the capability their names spell |
| `Domain.KpiActionKeys` | core/lib/mno_enterprise/concerns/models/ability.rb:131-150 | the three KPI actions read `kpis` with the capability their names spell |
| `Acl.Flag` | core/lib/mno_enterprise/concerns/models/ability.rb:92 | a granted flag implies that `related`, the category and the capability keys are all present |
| `Acl.FlagReadsStoredValue` | core/lib/mno_enterprise/concerns/models/ability.rb:92 | when all three levels are present, the decision is the stored flag |
| `Acl.AllGrantEvery` | core/lib/mno_enterprise/concerns/models/ability.rb:91-93 | `all?` holds iff every organization in the list grants the capability |
| `Acl.AllGrantMembers` | core/lib/mno_enterprise/concerns/models/ability.rb:91-93 | the same by membership: order and repetition of organizations do not matter |
| `Acl.AllGrantConcat` | core/lib/mno_enterprise/concerns/models/ability.rb:91-93 | unanimous consent over two lists joined is consent over each |
| `Acl.OneDenialDenies` | core/lib/mno_enterprise/concerns/models/ability.rb:91-93 | one organization without the flag denies the whole resource |
| `Acl.MissingLevelDenies` | core/lib/mno_enterprise/concerns/models/ability.rb:92 | an organization lacking `related` or the category denies, never raises |
| `Acl.EmptyResolutionDenies` | core/lib/mno_enterprise/concerns/models/ability.rb:91 | a resource resolving to no organization is denied (`present?`) |
| `Acl.GatePermutation` | core/lib/mno_enterprise/concerns/models/ability.rb:90-93 | the Impac! gate gives the same answer for any reordering of the organization list |
| `Membership.OwnedAppInstanceIdsMembership` | core/lib/mno_enterprise/concerns/models/ability.rb:64 | the flattened id list holds exactly the ids of instances some team owns; a `nil` team list contributes nothing |
| `Membership.Downcase` | core/lib/mno_enterprise/concerns/models/ability.rb:82 | folding keeps the length and folds each character by ASCII rules |
| `Membership.CaseInsensitiveEqualIff` | core/lib/mno_enterprise/concerns/models/ability.rb:82 | `casecmp(...).zero?` iff equal lengths and equal characters once ASCII letters are lower-cased |
| `Membership.PlatformStaffShape` | core/lib/mno_enterprise/concerns/models/ability.rb:82 | staff status needs a present admin role that folds to `admin` or `staff`; `nil` (`"".casecmp`) never qualifies |
| `Membership.PlatformStaffExamples` | core/lib/mno_enterprise/concerns/models/ability.rb:82 | `admin`, `Admin`, `STAFF` qualify; `sub_tenant_admin` and `nil` do not |
| `Policy.CreateAlwaysAllowed` | core/lib/mno_enterprise/concerns/models/ability.rb:23-28 | `:create` on an organization is allowed for every user, the defaulted empty user included |
| `Policy.GuestOnlyCreates` | core/lib/mno_enterprise/concerns/models/ability.rb:23-55 | the defaulted empty user may create an organization and do nothing else with one |
| `Policy.ReadIffRole` | core/lib/mno_enterprise/concerns/models/ability.rb:30-32 | `:read` on an organization iff the user holds some role in it |
| `Policy.EmptyRoleStringReads` | core/lib/mno_enterprise/concerns/models/ability.rb:30-32 | the empty role string is still a role and grants `:read` |
| `Policy.SuperAdminOnly` | core/lib/mno_enterprise/concerns/models/ability.rb:34-36 | `:update`, `:destroy`, `:manage_billing` iff the role is exactly `Super Admin` |
| `Policy.ManagerOnly` | core/lib/mno_enterprise/concerns/models/ability.rb:38-45 | `:upload`, `:purchase`, `:invite_member`, `:administrate`, `:manage_teams` iff the role is exactly `Super Admin` or `Admin` |
| `Policy.ManageAppInstancesIff` | core/lib/mno_enterprise/concerns/models/ability.rb:81-85 | `:manage_app_instances` iff the role rule of line 42 holds or the user is platform staff |
| `Policy.SyncNeedsAnyRole` | core/lib/mno_enterprise/concerns/models/ability.rb:47-55 | `:sync_apps` and `:check_apps_sync` iff the user holds any role in the organization |
| `Policy.OrganizationDefaultDeny` | core/lib/mno_enterprise/concerns/models/ability.rb:28-55 | an action registered for no Organization rule is denied on every organization |
| `Policy.NoRoleOnlyCreates` | core/lib/mno_enterprise/concerns/models/ability.rb:28-85 | without a role and without staff status, `:create` is the only action allowed on an organization |
| `Policy.StaffWithoutRole` | core/lib/mno_enterprise/concerns/models/ability.rb:81-85 | staff with no organization role may exactly `:create` and `:manage_app_instances` |
| `Policy.AdminRoleOnlyAffectsManageAppInstances` | core/lib/mno_enterprise/concerns/models/ability.rb:81-85 | changing the admin role changes no decision except `:manage_app_instances` on organizations |
| `Policy.SuperAdminDominatesAdmin` | core/lib/mno_enterprise/concerns/models/ability.rb:34-45 | whatever an `Admin` may do on an organization a `Super Admin` may do too, whatever either's admin role; `Admin` may not destroy, `Super Admin` may |
| `Policy.AdminScenario` | core/lib/mno_enterprise/concerns/models/ability.rb:34-45 | an `Admin` may purchase and upload, but may neither manage billing nor destroy |
| `Policy.StaffManagesAppInstances` | core/lib/mno_enterprise/concerns/models/ability.rb:81-85 | admin role `Staff` or `ADMIN` grants `:manage_app_instances` on every organization |
| `Policy.AccessIff` | core/lib/mno_enterprise/concerns/models/ability.rb:60-66 | `:access` iff a role in the owner, and the role is a manager role, or the user has no team, or a team owns the instance |
| `Policy.ManagerAccessesEveryInstance` | core/lib/mno_enterprise/concerns/models/ability.rb:60-66 | a `Super Admin`/`Admin` of the owner reaches every app instance, whatever the teams |
| `Policy.TeamRestrictedMemberDenied` | core/lib/mno_enterprise/concerns/models/ability.rb:60-66 | a non-manager whose non-empty teams do not own the instance is denied |
| `Policy.AppInstanceDefaultDeny` | core/lib/mno_enterprise/concerns/models/ability.rb:60-66 | any other action on an app instance, or no role in the owner, is denied |
| `Policy.ImpacIff` | core/lib/mno_enterprise/concerns/models/ability.rb:88-150 | each Impac! action on its class iff the resolved list is non-empty and every organization's flag is set |
| `Policy.ImpacDefaultDeny` | core/lib/mno_enterprise/concerns/models/ability.rb:88-150 | an Impac! action on another class, or a non-Impac! action, is denied on Impac! resources |
| `Policy.ImpacIgnoresUser` | core/lib/mno_enterprise/concerns/models/ability.rb:88-150 | for a fixed visible-organization list, the nine blocks read neither roles, teams nor admin role |
| `Policy.ImpacNeedsVisibleOrganization` | core/lib/mno_enterprise/concerns/models/ability.rb:71-93 | if a resource resolves only to organizations taken from the visible list, an Impac! action is granted only when that list is non-empty |
| `Policy.TwoOrganizationDashboard` | core/lib/mno_enterprise/concerns/models/ability.rb:89-94 | a dashboard in two organizations may be created iff both grant `dashboards.create` |
| `Rules.AnyGrantsConcat` | core/lib/mno_enterprise/concerns/models/ability.rb:22-85 | the decision over two rule lists joined is the OR of the two, so registration order is irrelevant |
| `Rules.RuleGrants` | core/lib/mno_enterprise/concerns/models/ability.rb:22-85 | any relevant rule whose block holds grants the check |
| `Rules.GrantingRule` | core/lib/mno_enterprise/concerns/models/ability.rb:22-85 | a granted check has a relevant rule whose block holds (deny by default) |
| `Rules.OrganizationRuleSound` | core/lib/mno_enterprise/concerns/models/ability.rb:28-55 | each Organization rule grants only what the organization role permits |
| `Rules.OrganizationRulesComplete` | core/lib/mno_enterprise/concerns/models/ability.rb:28-55 | whatever the organization role permits is granted by some Organization rule |
| `Rules.OrganizationRulesOnOrganization` | core/lib/mno_enterprise/concerns/models/ability.rb:28-55 | the Organization rules grant on an organization exactly what its role permits |
| `Rules.OrganizationRulesOnAppInstance` | core/lib/mno_enterprise/concerns/models/ability.rb:60-66 | on app instances those rules grant exactly `:access` under the access block |
| `Rules.OrganizationRulesDecide` | core/lib/mno_enterprise/concerns/models/ability.rb:28-66 | the rules registered inline in `initialize` decide per class as `Can` does, staff override aside |
| `Rules.ImpacRulesAt` | core/lib/mno_enterprise/concerns/models/ability.rb:88-150 | the rule registered for a pair is the shared template instantiated with that pair |
| `Rules.ImpacRulesCover` | core/lib/mno_enterprise/concerns/models/ability.rb:88-150 | every one of the nine rules is the template for some pair |
| `Rules.ImpacRuleDecides` | core/lib/mno_enterprise/concerns/models/ability.rb:88-150 | one Impac! rule grants exactly its own action on its own class, when `Can` does |
| `Rules.ImpacRulesDecide` | core/lib/mno_enterprise/concerns/models/ability.rb:88-150 | the nine rules grant exactly what `Can` grants on Impac! resources, and nothing elsewhere |
| `Rules.AdminRulesDecide` | core/lib/mno_enterprise/concerns/models/ability.rb:81-85 | the staff rule grants exactly `:manage_app_instances` on organizations, for staff only |
| `Rules.RuleTableDecides` | core/lib/mno_enterprise/concerns/models/ability.rb:22-85 | the table `initialize` builds grants a check iff `Can` does |
| `Ability.Ability.constructor` | core/lib/mno_enterprise/concerns/models/ability.rb:22-78 | the user is defaulted, the organization list is the query's result for that user and impersonator, and the table is the full initial table |
| `Ability.Ability.Grant` | core/lib/mno_enterprise/concerns/models/ability.rb:28 | a `can` call appends exactly one rule and keeps the earlier ones |
| `Ability.Ability.ImpacAbilities` | core/lib/mno_enterprise/concerns/models/ability.rb:88-151 | appends the nine ACL-gated rules, each closed over the organization list |
| `Ability.Ability.AdminAbilities` | core/lib/mno_enterprise/concerns/models/ability.rb:81-85 | appends the `:manage_app_instances` rule for staff, and nothing otherwise |
| `Ability.Ability.Allows` | core/lib/mno_enterprise/concerns/models/ability.rb:22-85 | on a fully built ability, `can?` answers exactly as the policy `Can` |

## Left out

- The admin users controller (`api/app/controllers/mno_enterprise/jpi/v1/admin/users_controller.rb`): HTTP handling, persistence, mail delivery and session writes. It is not part of this model.
- How `user.organizations.active.include_acl(impersonator)` (line 71) and `Dashboard/Widget/Kpi#organizations` are computed: they are database/API queries in code not shown. They are parameters: a query function passed to the constructor, and a function field on each Impac! resource.
- `Policy.ImpacNeedsVisibleOrganization` assumes that `organizations(orgs_with_acl)` returns only organizations from the list it is given. That method is not part of this model, so the model does not otherwise promise that a user with no visible organization is denied Impac! actions.
- How `user.role(organization)`, `user.teams` and `team.app_instances` are loaded. The user carries a map from organization id to role string and a list of teams, each with an optional list of app instances.
- CanCan internals: rule storage, `:manage`/`:all`, the default action aliases (`:show`/`:index` to `:read`, `:new` to `:create`, `:edit` to `:update`), checks against a class rather than an instance, and `cannot` rules. None of them appears in the ability file. The model keeps only their effect: OR over the matching rules, with deny by default.
- ACL values: each level is a map and each leaf is a boolean. A non-hash truthy intermediate value (where Ruby raises an error: `NoMethodError` for `true`, `TypeError` for a string, array or integer) and leaves other than `true`/`false`/absent are not modelled.
- An app instance always has an owner; a `nil` owner is not modelled.
- Line 64 does not de-duplicate the team app-instance ids; `include?` is unaffected. `admin_role` is a free string compared case-insensitively (line 82), and the model keeps it a string.
