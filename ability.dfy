/**
 * The ability object: built once per user and session, it registers its rules
 * one `can` call at a time, then answers `can?` questions from that table.
 */
module Ability {
  import opened Wrappers
  import opened Domain
  import opened Membership
  import opened Policy
  import opened Rules

  /**
   * `user.organizations.active.include_acl(impersonator_id)`: the active organizations
   * of a user, with the ACLs the impersonator (if any) may see. Computed outside this model.
   */
  type OrganizationQuery = (User, Option<UserId>) -> seq<Organization>

  class Ability {
    const user: User
    const orgsWithAcl: seq<Organization>
    var rules: seq<Rule>

    /** The table holds the rules `initialize` registers for this user and organization list. */
    ghost predicate Valid()
      reads this
    {
      rules == InitialRules(user, orgsWithAcl)
    }

    /** `initialize(user, session)`. */
    constructor (user: Option<User>, session: Session, activeOrgsWithAcl: OrganizationQuery)
      ensures this.user == DefaultUser(user)
      ensures orgsWithAcl == activeOrgsWithAcl(DefaultUser(user), session.impersonatorUserId)
      ensures Valid()
    {
      var u := DefaultUser(user);
      var orgs := activeOrgsWithAcl(u, session.impersonatorUserId);
      this.user := u;
      this.orgsWithAcl := orgs;
      rules := [];
      new;
      // Organization
      Grant({Create}, OrganizationClass, Always);
      Grant({Read}, OrganizationClass, HasRole);
      Grant({Update, Destroy, ManageBilling}, OrganizationClass, RoleIs(SuperAdmin));
      Grant({Upload, Purchase, InviteMember, Administrate, ManageAppInstances, ManageTeams},
            OrganizationClass, RoleAmong([SuperAdmin, Admin]));
      Grant({SyncApps}, OrganizationClass, HasRole);
      Grant({CheckAppsSync}, OrganizationClass, HasRole);
      // AppInstance
      Grant({Access}, AppInstanceClass, AppInstanceAccess);
      assert rules == OrganizationRules();
      // Impac!
      ImpacAbilities(orgs);
      assert rules == OrganizationRules() + ImpacRules(orgs);
      // Admin abilities
      AdminAbilities(u);
    }

    /** CanCan's `can actions, subject do ... end`: appends one rule to the table. */
    method Grant(actions: set<Action>, subject: Subject, condition: Condition)
      modifies this
      ensures rules == old(rules) + [Rule(actions, subject, condition)]
    {
      rules := rules + [Rule(actions, subject, condition)];
    }

    /** `impac_abilities(orgs_with_acl)`: the nine ACL-gated rules, each closed over the organization list. */
    method ImpacAbilities(orgs: seq<Organization>)
      modifies this
      ensures rules == old(rules) + ImpacRules(orgs)
    {
      Grant({CreateImpacDashboards}, ImpacClass(Dashboard), AclGate("dashboards", "create", orgs));
      Grant({UpdateImpacDashboards}, ImpacClass(Dashboard), AclGate("dashboards", "update", orgs));
      Grant({DestroyImpacDashboards}, ImpacClass(Dashboard), AclGate("dashboards", "destroy", orgs));
      Grant({CreateImpacWidgets}, ImpacClass(Widget), AclGate("widgets", "create", orgs));
      Grant({UpdateImpacWidgets}, ImpacClass(Widget), AclGate("widgets", "update", orgs));
      Grant({DestroyImpacWidgets}, ImpacClass(Widget), AclGate("widgets", "destroy", orgs));
      Grant({CreateImpacKpis}, ImpacClass(Kpi), AclGate("kpis", "create", orgs));
      Grant({UpdateImpacKpis}, ImpacClass(Kpi), AclGate("kpis", "update", orgs));
      Grant({DestroyImpacKpis}, ImpacClass(Kpi), AclGate("kpis", "destroy", orgs));
    }

    /** `admin_abilities(user)`: platform staff may manage the app instances of every organization. */
    method AdminAbilities(u: User)
      modifies this
      ensures rules == old(rules) + AdminRules(u)
    {
      if IsPlatformStaff(u.adminRole) {
        Grant({ManageAppInstances}, OrganizationClass, Always);
      }
    }

    /** `can?(action, resource)`: answered from the table, and equal to the policy `Can`. */
    predicate Allows(action: Action, resource: Resource)
      reads this
      requires Valid()
      ensures Allows(action, resource) <==> Can(user, orgsWithAcl, action, resource)
    {
      RuleTableDecides(user, orgsWithAcl, action, resource);
      AnyGrants(rules, user, action, resource)
    }
  }
}
