/**
 * ACL traversal: reading one capability flag out of an organization's nested
 * ACL, and the unanimous consent an Impac! rule asks of every organization a
 * resource belongs to.
 */
module Acl {
  import opened Wrappers
  import opened Domain

  const Related := "related"

  /**
   * `acl[:related] && acl[:related][category] && acl[:related][category][capability]`:
   * each level is optional, and a missing level reads as a denial, never an error.
   */
  function Flag(acl: AclMap, category: string, capability: string): (granted: bool)
    ensures granted ==> Related in acl && category in acl[Related] && capability in acl[Related][category]
  {
    match Get(acl, Related)
    case None => false
    case Some(related) =>
      match Get(related, category)
      case None => false
      case Some(capabilities) =>
        match Get(capabilities, capability)
        case None => false
        case Some(flag) => flag
  }

  /** `orgs.all? { |org| <flag of org> }` */
  predicate AllGrant(orgs: seq<Organization>, category: string, capability: string)
  {
    if orgs == [] then true
    else Flag(orgs[0].acl, category, capability) && AllGrant(orgs[1..], category, capability)
  }

  /** `orgs.present? && orgs.all? { ... }`: the body of every Impac! rule. */
  predicate Gate(orgs: seq<Organization>, category: string, capability: string)
  {
    |orgs| > 0 && AllGrant(orgs, category, capability)
  }

  /** A flag that is present and true is read as granted; one that is false is read as denied. */
  lemma FlagReadsStoredValue(acl: AclMap, category: string, capability: string)
    requires Related in acl && category in acl[Related] && capability in acl[Related][category]
    ensures Flag(acl, category, capability) == acl[Related][category][capability]
  {
  }

  /** `all?` holds exactly when every organization, by position, grants the capability. */
  lemma {:induction false} AllGrantEvery(orgs: seq<Organization>, category: string, capability: string)
    ensures AllGrant(orgs, category, capability)
        <==> forall i :: 0 <= i < |orgs| ==> Flag(orgs[i].acl, category, capability)
  {
    if orgs != [] {
      AllGrantEvery(orgs[1..], category, capability);
      assert forall i :: 1 <= i < |orgs| ==> orgs[i] == orgs[1..][i - 1];
    }
  }

  /** The same, by membership: the order of the organizations and repetitions do not matter. */
  lemma AllGrantMembers(orgs: seq<Organization>, category: string, capability: string)
    ensures AllGrant(orgs, category, capability)
        <==> forall org :: org in orgs ==> Flag(org.acl, category, capability)
  {
    AllGrantEvery(orgs, category, capability);
  }

  /** Unanimous consent splits over a concatenation of organization lists. */
  lemma {:induction false} AllGrantConcat(a: seq<Organization>, b: seq<Organization>, category: string, capability: string)
    ensures AllGrant(a + b, category, capability)
        <==> AllGrant(a, category, capability) && AllGrant(b, category, capability)
  {
    if a == [] {
      assert a + b == b;
    } else {
      assert (a + b)[1..] == a[1..] + b;
      AllGrantConcat(a[1..], b, category, capability);
    }
  }

  /** A single organization that withholds the capability denies the whole resource. */
  lemma OneDenialDenies(orgs: seq<Organization>, k: nat, category: string, capability: string)
    requires k < |orgs|
    requires !Flag(orgs[k].acl, category, capability)
    ensures !Gate(orgs, category, capability)
  {
    AllGrantEvery(orgs, category, capability);
  }

  /** An organization without a `related` entry, or without the category, denies. */
  lemma MissingLevelDenies(orgs: seq<Organization>, k: nat, category: string, capability: string)
    requires k < |orgs|
    requires Related !in orgs[k].acl || category !in orgs[k].acl[Related]
    ensures !Gate(orgs, category, capability)
  {
    OneDenialDenies(orgs, k, category, capability);
  }

  /** A resource that resolves to no organization is denied, whatever the ACLs say. */
  lemma EmptyResolutionDenies(category: string, capability: string)
    ensures !Gate([], category, capability)
  {
  }

  /** The gate depends only on which organizations are listed, not on their order. */
  lemma GatePermutation(a: seq<Organization>, b: seq<Organization>, category: string, capability: string)
    requires multiset(a) == multiset(b)
    ensures Gate(a, category, capability) == Gate(b, category, capability)
  {
    AllGrantMembers(a, category, capability);
    AllGrantMembers(b, category, capability);
    assert forall org :: org in a <==> org in multiset(a);
    assert forall org :: org in b <==> org in multiset(b);
    assert |a| == |multiset(a)| && |b| == |multiset(b)|;
  }
}
