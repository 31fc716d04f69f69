/**
 * The ability's rule table as data. Each `can` call registers a rule: the
 * actions it covers, the class it applies to and the condition its block
 * tests. A check grants when some rule for the action and the resource's
 * class has a condition that holds; with no such rule the answer is deny.
 */
module Rules {
  import opened Wrappers
  import opened Domain
  import opened Acl
  import opened Membership
  import opened Policy

  /** The blocks the rule set passes to `can`; the user they close over is supplied on evaluation. */
  datatype Condition =
    | Always                                      // a rule without a block
    | HasRole                                     // `!!user.role(organization)` and the bare `user.role(organization)`
    | RoleIs(role: string)                        // `user.role(organization) == role`
    | RoleAmong(roles: seq<string>)               // `roles.include?(user.role(organization))`
    | AppInstanceAccess                           // the `:access` block on AppInstance
    | AclGate(category: string, capability: string, orgsWithAcl: seq<Organization>)
                                                  // an Impac! block, closed over `orgs_with_acl`

  datatype Rule = Rule(actions: set<Action>, subject: Subject, condition: Condition)

  /** A rule is relevant to a check when it names the action and the resource's class. */
  predicate Relevant(rule: Rule, action: Action, resource: Resource)
  {
    action in rule.actions && rule.subject == SubjectOf(resource)
  }

  /** Evaluating a rule's block on the resource; a block never sees a resource of another class. */
  predicate Holds(condition: Condition, user: User, resource: Resource)
  {
    match condition
    case Always => true
    case HasRole =>
      resource.OrganizationResource? && RoleIn(user, resource.org).Some?
    case RoleIs(role) =>
      resource.OrganizationResource? && RoleIn(user, resource.org) == Some(role)
    case RoleAmong(roles) =>
      resource.OrganizationResource? && RoleIn(user, resource.org).Some? && RoleIn(user, resource.org).value in roles
    case AppInstanceAccess =>
      resource.AppInstanceResource? && AppAccess(user, resource.app)
    case AclGate(category, capability, orgsWithAcl) =>
      resource.ImpacResource? && Gate(resource.organizations(orgsWithAcl), category, capability)
  }

  /** `can?`: some relevant rule's block holds; no relevant rule means deny. */
  predicate AnyGrants(rules: seq<Rule>, user: User, action: Action, resource: Resource)
  {
    if rules == [] then false
    else
      || (Relevant(rules[0], action, resource) && Holds(rules[0].condition, user, resource))
      || AnyGrants(rules[1..], user, action, resource)
  }

  /** The rules `initialize` registers for Organization and AppInstance, in order. */
  function OrganizationRules(): seq<Rule>
  {
    [ Rule({Create}, OrganizationClass, Always),
      Rule({Read}, OrganizationClass, HasRole),
      Rule({Update, Destroy, ManageBilling}, OrganizationClass, RoleIs(SuperAdmin)),
      Rule({Upload, Purchase, InviteMember, Administrate, ManageAppInstances, ManageTeams},
           OrganizationClass, RoleAmong([SuperAdmin, Admin])),
      Rule({SyncApps}, OrganizationClass, HasRole),
      Rule({CheckAppsSync}, OrganizationClass, HasRole),
      Rule({Access}, AppInstanceClass, AppInstanceAccess) ]
  }

  /** One Impac! rule: the template all nine instantiate. */
  function ImpacRule(kind: ImpacKind, cap: Capability, orgsWithAcl: seq<Organization>): Rule
  {
    Rule({ImpacActionFor(kind, cap)}, ImpacClass(kind), AclGate(CategoryKey(kind), CapabilityKey(cap), orgsWithAcl))
  }

  /** The nine rules `impac_abilities` registers, in order. */
  function ImpacRules(orgsWithAcl: seq<Organization>): seq<Rule>
  {
    [ ImpacRule(Dashboard, CreateCap, orgsWithAcl),
      ImpacRule(Dashboard, UpdateCap, orgsWithAcl),
      ImpacRule(Dashboard, DestroyCap, orgsWithAcl),
      ImpacRule(Widget, CreateCap, orgsWithAcl),
      ImpacRule(Widget, UpdateCap, orgsWithAcl),
      ImpacRule(Widget, DestroyCap, orgsWithAcl),
      ImpacRule(Kpi, CreateCap, orgsWithAcl),
      ImpacRule(Kpi, UpdateCap, orgsWithAcl),
      ImpacRule(Kpi, DestroyCap, orgsWithAcl) ]
  }

  /** The rule `admin_abilities` registers, for platform staff only. */
  function AdminRules(user: User): seq<Rule>
  {
    if IsPlatformStaff(user.adminRole) then [Rule({ManageAppInstances}, OrganizationClass, Always)] else []
  }

  /** The whole table an ability holds once `initialize` returns. */
  function InitialRules(user: User, orgsWithAcl: seq<Organization>): seq<Rule>
  {
    OrganizationRules() + ImpacRules(orgsWithAcl) + AdminRules(user)
  }

  /** OR over a concatenation of rule lists is the OR of the two parts: rule order is irrelevant. */
  lemma {:induction false} AnyGrantsConcat(a: seq<Rule>, b: seq<Rule>, user: User, action: Action, resource: Resource)
    ensures AnyGrants(a + b, user, action, resource) <==> AnyGrants(a, user, action, resource) || AnyGrants(b, user, action, resource)
  {
    if a == [] {
      assert a + b == b;
    } else {
      assert (a + b)[1..] == a[1..] + b;
      AnyGrantsConcat(a[1..], b, user, action, resource);
    }
  }

  /** A rule that is relevant and holds grants the check. */
  lemma {:induction false} RuleGrants(rules: seq<Rule>, i: nat, user: User, action: Action, resource: Resource)
    requires i < |rules| && Relevant(rules[i], action, resource) && Holds(rules[i].condition, user, resource)
    ensures AnyGrants(rules, user, action, resource)
  {
    if i > 0 {
      assert rules[1..][i - 1] == rules[i];
      RuleGrants(rules[1..], i - 1, user, action, resource);
    }
  }

  /** A granted check names the rule that granted it: default deny. */
  lemma {:induction false} GrantingRule(rules: seq<Rule>, user: User, action: Action, resource: Resource) returns (i: nat)
    requires AnyGrants(rules, user, action, resource)
    ensures i < |rules| && Relevant(rules[i], action, resource) && Holds(rules[i].condition, user, resource)
  {
    if Relevant(rules[0], action, resource) && Holds(rules[0].condition, user, resource) {
      i := 0;
    } else {
      var j := GrantingRule(rules[1..], user, action, resource);
      i := j + 1;
    }
  }

  /** Each Organization rule that is relevant and holds is backed by the organization role. */
  lemma OrganizationRuleSound(user: User, action: Action, org: Organization, i: nat)
    requires i < |OrganizationRules()|
    requires Relevant(OrganizationRules()[i], action, OrganizationResource(org))
    requires Holds(OrganizationRules()[i].condition, user, OrganizationResource(org))
    ensures OrganizationRoleGrants(RoleIn(user, org), action)
  {
  }

  /** Whatever the organization role permits, some Organization rule grants. */
  lemma OrganizationRulesComplete(user: User, action: Action, org: Organization)
    requires OrganizationRoleGrants(RoleIn(user, org), action)
    ensures AnyGrants(OrganizationRules(), user, action, OrganizationResource(org))
  {
    var i :=
      if action == Create then 0
      else if action == Read then 1
      else if action in {Update, Destroy, ManageBilling} then 2
      else if action in {Upload, Purchase, InviteMember, Administrate, ManageAppInstances, ManageTeams} then 3
      else if action == SyncApps then 4
      else 5;
    RuleGrants(OrganizationRules(), i, user, action, OrganizationResource(org));
  }

  /** On an organization, the Organization rules decide as the organization role does. */
  lemma OrganizationRulesOnOrganization(user: User, action: Action, org: Organization)
    ensures AnyGrants(OrganizationRules(), user, action, OrganizationResource(org))
        <==> OrganizationRoleGrants(RoleIn(user, org), action)
  {
    if AnyGrants(OrganizationRules(), user, action, OrganizationResource(org)) {
      var i := GrantingRule(OrganizationRules(), user, action, OrganizationResource(org));
      OrganizationRuleSound(user, action, org, i);
    }
    if OrganizationRoleGrants(RoleIn(user, org), action) {
      OrganizationRulesComplete(user, action, org);
    }
  }

  /** On an app instance, only the `:access` rule is relevant. */
  lemma OrganizationRulesOnAppInstance(user: User, orgsWithAcl: seq<Organization>, action: Action, app: AppInstance)
    ensures AnyGrants(OrganizationRules(), user, action, AppInstanceResource(app))
        <==> Can(user, orgsWithAcl, action, AppInstanceResource(app))
  {
    var rules, resource := OrganizationRules(), AppInstanceResource(app);
    if AnyGrants(rules, user, action, resource) {
      var i := GrantingRule(rules, user, action, resource);
      assert i == 6;
    }
    if Can(user, orgsWithAcl, action, resource) {
      RuleGrants(rules, 6, user, action, resource);
    }
  }

  /** The Organization and AppInstance rules decide as `Can` does, staff override aside. */
  lemma OrganizationRulesDecide(user: User, orgsWithAcl: seq<Organization>, action: Action, resource: Resource)
    ensures AnyGrants(OrganizationRules(), user, action, resource)
        <==> || (resource.OrganizationResource? && OrganizationRoleGrants(RoleIn(user, resource.org), action))
             || (resource.AppInstanceResource? && Can(user, orgsWithAcl, action, resource))
  {
    match resource
    case OrganizationResource(org) =>
      OrganizationRulesOnOrganization(user, action, org);
    case AppInstanceResource(app) =>
      OrganizationRulesOnAppInstance(user, orgsWithAcl, action, app);
    case ImpacResource(_, _) =>
      if AnyGrants(OrganizationRules(), user, action, resource) {
        var i := GrantingRule(OrganizationRules(), user, action, resource);
      }
  }

  /** Where `ImpacRules` registers the rule for a (resource class, capability) pair. */
  function ImpacIndex(kind: ImpacKind, cap: Capability): (i: nat)
    ensures i < 9
  {
    (match kind case Dashboard => 0 case Widget => 3 case Kpi => 6)
    + (match cap case CreateCap => 0 case UpdateCap => 1 case DestroyCap => 2)
  }

  /** An Impac! rule grants exactly what `Can` grants for its action on its class. */
  lemma ImpacRuleDecides(kind: ImpacKind, cap: Capability, orgsWithAcl: seq<Organization>,
                         user: User, action: Action, resource: Resource)
    ensures Relevant(ImpacRule(kind, cap, orgsWithAcl), action, resource)
            && Holds(ImpacRule(kind, cap, orgsWithAcl).condition, user, resource)
        <==> action == ImpacActionFor(kind, cap) && resource.ImpacResource? && Can(user, orgsWithAcl, action, resource)
  {
    ImpacSlotRoundTrip(kind, cap);
  }

  /** `ImpacRules` lists the template at `ImpacIndex(kind, cap)` for every pair. */
  lemma ImpacRulesAt(kind: ImpacKind, cap: Capability, orgsWithAcl: seq<Organization>)
    ensures ImpacRules(orgsWithAcl)[ImpacIndex(kind, cap)] == ImpacRule(kind, cap, orgsWithAcl)
  {
  }

  /** Every position of `ImpacRules` holds the template for the pair that indexes it. */
  lemma ImpacRulesCover(i: nat, orgsWithAcl: seq<Organization>) returns (kind: ImpacKind, cap: Capability)
    requires i < |ImpacRules(orgsWithAcl)|
    ensures ImpacRules(orgsWithAcl)[i] == ImpacRule(kind, cap, orgsWithAcl)
  {
    kind := [Dashboard, Widget, Kpi][i / 3];
    cap := [CreateCap, UpdateCap, DestroyCap][i % 3];
    ImpacRulesAt(kind, cap, orgsWithAcl);
  }

  /** The nine Impac! rules decide exactly as `Can` does on Impac! resources and grant nothing elsewhere. */
  lemma ImpacRulesDecide(user: User, orgsWithAcl: seq<Organization>, action: Action, resource: Resource)
    ensures AnyGrants(ImpacRules(orgsWithAcl), user, action, resource)
        <==> resource.ImpacResource? && Can(user, orgsWithAcl, action, resource)
  {
    if AnyGrants(ImpacRules(orgsWithAcl), user, action, resource) {
      var i := GrantingRule(ImpacRules(orgsWithAcl), user, action, resource);
      var kind, cap := ImpacRulesCover(i, orgsWithAcl);
      ImpacRuleDecides(kind, cap, orgsWithAcl, user, action, resource);
    }
    if resource.ImpacResource? && Can(user, orgsWithAcl, action, resource) {
      var (kind, cap) := ImpacSlot(action).value;
      ImpacRuleDecides(kind, cap, orgsWithAcl, user, action, resource);
      ImpacRulesAt(kind, cap, orgsWithAcl);
      RuleGrants(ImpacRules(orgsWithAcl), ImpacIndex(kind, cap), user, action, resource);
    }
  }

  /** The staff rule adds `:manage_app_instances` on organizations for staff, and nothing else. */
  lemma AdminRulesDecide(user: User, action: Action, resource: Resource)
    ensures AnyGrants(AdminRules(user), user, action, resource)
        <==> action == ManageAppInstances && resource.OrganizationResource? && IsPlatformStaff(user.adminRole)
  {
    var rules := AdminRules(user);
    if AnyGrants(rules, user, action, resource) {
      var i := GrantingRule(rules, user, action, resource);
    }
    if action == ManageAppInstances && resource.OrganizationResource? && IsPlatformStaff(user.adminRole) {
      RuleGrants(rules, 0, user, action, resource);
    }
  }

  /** The table `initialize` builds decides every check exactly as `Can` does. */
  lemma RuleTableDecides(user: User, orgsWithAcl: seq<Organization>, action: Action, resource: Resource)
    ensures AnyGrants(InitialRules(user, orgsWithAcl), user, action, resource) <==> Can(user, orgsWithAcl, action, resource)
  {
    AnyGrantsConcat(OrganizationRules() + ImpacRules(orgsWithAcl), AdminRules(user), user, action, resource);
    AnyGrantsConcat(OrganizationRules(), ImpacRules(orgsWithAcl), user, action, resource);
    OrganizationRulesDecide(user, orgsWithAcl, action, resource);
    ImpacRulesDecide(user, orgsWithAcl, action, resource);
    AdminRulesDecide(user, action, resource);
  }
}
