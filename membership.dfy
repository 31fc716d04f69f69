/**
 * Role and membership lookups the rules are built from: the user's role in
 * an organization, the app instances the user's teams own, and the platform
 * admin role check.
 */
module Membership {
  import opened Wrappers
  import opened Domain

  const SuperAdmin := "Super Admin"
  const Admin := "Admin"

  /** `user.role(organization)`: the role string, or `nil` when the user has none there. */
  function RoleIn(user: User, org: Organization): Option<string>
  {
    Get(user.roles, org.id)
  }

  /** `['Super Admin','Admin'].include?(role)`: an exact match, so `nil` and every other string fail. */
  predicate IsManagerRole(role: Option<string>)
  {
    role == Some(SuperAdmin) || role == Some(Admin)
  }

  /** The ids of a list of app instances (`.map(&:id)`). */
  function Ids(apps: seq<AppInstance>): seq<AppInstanceId>
  {
    seq(|apps|, i requires 0 <= i < |apps| => apps[i].id)
  }

  /** `teams.map(&:app_instances).compact.flatten.map(&:id)`: a `nil` association contributes nothing. */
  function OwnedAppInstanceIds(teams: seq<Team>): seq<AppInstanceId>
  {
    if teams == [] then []
    else
      var own := match teams[0].appInstances
        case None => []
        case Some(apps) => Ids(apps);
      own + OwnedAppInstanceIds(teams[1..])
  }

  /** Some team owns app instance `id`: some team's (non-nil) app instance list holds an instance with that id. */
  ghost predicate SomeTeamOwns(teams: seq<Team>, id: AppInstanceId)
  {
    exists i, j :: 0 <= i < |teams| && teams[i].appInstances.Some?
      && 0 <= j < |teams[i].appInstances.value| && teams[i].appInstances.value[j].id == id
  }

  /** The flattened id list contains exactly the ids of instances that some team owns. */
  lemma {:induction false} OwnedAppInstanceIdsMembership(teams: seq<Team>, id: AppInstanceId)
    ensures id in OwnedAppInstanceIds(teams) <==> SomeTeamOwns(teams, id)
  {
    if teams != [] {
      OwnedAppInstanceIdsMembership(teams[1..], id);
      var own := match teams[0].appInstances
        case None => []
        case Some(apps) => Ids(apps);
      assert OwnedAppInstanceIds(teams) == own + OwnedAppInstanceIds(teams[1..]);
      if SomeTeamOwns(teams[1..], id) {
        var i, j :| 0 <= i < |teams[1..]| && teams[1..][i].appInstances.Some?
          && 0 <= j < |teams[1..][i].appInstances.value| && teams[1..][i].appInstances.value[j].id == id;
        assert teams[i + 1] == teams[1..][i];
      }
      if SomeTeamOwns(teams, id) {
        var i, j :| 0 <= i < |teams| && teams[i].appInstances.Some?
          && 0 <= j < |teams[i].appInstances.value| && teams[i].appInstances.value[j].id == id;
        if i == 0 {
          assert own[j] == id;
        } else {
          assert teams[1..][i - 1] == teams[i];
        }
      }
      if id in own {
        var j :| 0 <= j < |own| && own[j] == id;
        assert teams[0].appInstances.value[j].id == id;
      }
    }
  }

  /** Ruby's ASCII-only case folding, as `String#casecmp` applies it. */
  function DowncaseChar(c: char): (d: char)
    ensures 'A' <= c <= 'Z' ==> d != c && 'a' <= d <= 'z'
    ensures !('A' <= c <= 'Z') ==> d == c
  {
    if 'A' <= c <= 'Z' then (c as int + 32) as char else c
  }

  function Downcase(s: string): (d: string)
    ensures |d| == |s|
    ensures forall i :: 0 <= i < |s| ==> d[i] == DowncaseChar(s[i])
  {
    if s == [] then [] else [DowncaseChar(s[0])] + Downcase(s[1..])
  }

  /** `a.casecmp(b).zero?`: equal once ASCII letters are folded to lower case. */
  predicate CaseInsensitiveEqual(a: string, b: string)
  {
    Downcase(a) == Downcase(b)
  }

  /** `nil.to_s` is the empty string. */
  function ToS(s: Option<string>): string
  {
    match s
    case None => ""
    case Some(text) => text
  }

  /** The platform admin role test of `admin_abilities`: `'admin'` or `'staff'`, in any letter case. */
  predicate IsPlatformStaff(adminRole: Option<string>)
  {
    CaseInsensitiveEqual(ToS(adminRole), "admin") || CaseInsensitiveEqual(ToS(adminRole), "staff")
  }

  /** Case-insensitive equality is position-wise equality of the folded characters. */
  lemma CaseInsensitiveEqualIff(a: string, b: string)
    ensures CaseInsensitiveEqual(a, b)
        <==> |a| == |b| && forall i :: 0 <= i < |a| ==> DowncaseChar(a[i]) == DowncaseChar(b[i])
  {
    if |a| == |b| && forall i :: 0 <= i < |a| ==> DowncaseChar(a[i]) == DowncaseChar(b[i]) {
      assert Downcase(a) == Downcase(b);
    }
  }

  /** Staff status needs a five-letter admin role that folds to `admin` or `staff`; `nil` never qualifies. */
  lemma PlatformStaffShape(adminRole: Option<string>)
    ensures IsPlatformStaff(adminRole)
        ==> adminRole.Some? && (Downcase(adminRole.value) == "admin" || Downcase(adminRole.value) == "staff")
  {
    if adminRole.None? {
      assert Downcase("") == "";
      assert |Downcase("admin")| == 5 && |Downcase("staff")| == 5;
    } else {
      assert Downcase("admin") == "admin";
      assert Downcase("staff") == "staff";
    }
  }

  /** Example admin roles: any letter case of `admin`/`staff` qualifies; `sub_tenant_admin` and `nil` do not. */
  lemma PlatformStaffExamples()
    ensures IsPlatformStaff(Some("admin")) && IsPlatformStaff(Some("Admin")) && IsPlatformStaff(Some("STAFF"))
    ensures !IsPlatformStaff(Some("sub_tenant_admin")) && !IsPlatformStaff(None)
  {
    assert Downcase("Admin") == "admin";
    assert Downcase("STAFF") == "staff";
    assert Downcase("admin") == "admin";
    assert Downcase("staff") == "staff";
    PlatformStaffShape(Some("sub_tenant_admin"));
    PlatformStaffShape(None);
  }
}
