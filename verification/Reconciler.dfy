/** The state a VpcEndpointReconciler works on, and what every stage of a reconcile may rely on. */
module Reconciler {
  import opened Aws
  import opened Kube
  import Naming

  /** A GetHostedZone answer (without the id, which is the one asked for) and the time it was fetched. */
  datatype CacheEntry = CacheEntry(name: string, vpcs: set<Id>, fetchedAt: nat)

  /** GetHostedZone has no answer for the empty id. */
  type ZoneCache = c: map<ZoneRef, CacheEntry> | NoZone !in c witness map[]

  function Answer(ref: ZoneRef, e: CacheEntry): ZoneInfo {
    ZoneInfo(if ref == NoZone then NO_ID else ref.n, e.name, e.vpcs)
  }

  /** What a reconcile takes as given. */
  datatype Env = Env(name: string, spec: Spec, deleting: bool, cluster: string, catalog: Catalog, lookups: Lookups,
                     now: nat, privateDns: bool)

  /** What a reconcile changes: the status in memory and as persisted, the AWS resources, the zone cache and the
      service. */
  datatype View = View(status: Status, kept: Status,
                       groups: map<Id, Group>, nextGroup: Id, endpoints: map<Id, Endpoint>, nextEndpoint: Id,
                       zones: map<Id, Zone>, nextZone: Id,
                       cache: map<ZoneRef, CacheEntry>, unseen: set<(ZoneRef, Id)>,
                         answers: set<(nat, ZoneRef, ZoneInfo)>,
                       service: Option<string>, mutations: nat, creations: nat, serviceWrites: nat,
                       lost: nat, failedWrites: nat, awsBudget: nat, k8sBudget: nat)

  /** Failed calls cost the environment its budgets. Counted among them are associations that AWS carried out
      nevertheless, and writes of the status. */
  predicate Spends(v: View, w: View) {
    && w.awsBudget <= v.awsBudget && v.lost <= w.lost && w.awsBudget + w.lost <= v.awsBudget + v.lost
    && Spent(v.k8sBudget, v.failedWrites, w.k8sBudget, w.failedWrites)
  }

  predicate NoFaults(v: View, w: View) {
    w.awsBudget == v.awsBudget && w.k8sBudget == v.k8sBudget
  }

  class VpcEndpointReconciler {
    const aws: AwsClient
    const k8s: ApiServer
    // the feature flag for .spec.enablePrivateDns
    const enablePrivateDns: bool
    // the CR as read at the start of the reconcile, with the changes made since
    var vpce: VpcEndpoint
    var status: Status
    var clusterTag: string
    // whether an AWS client has been set up in this reconcile
    var clientReady: bool
    var cache: ZoneCache
    // for each spelling of a zone id, the VPCs whose association with the zone has changed since GetHostedZone last
    // answered for that spelling, without the operator having been told so under that spelling
    ghost var unseen: set<(ZoneRef, Id)>

    constructor (aws: AwsClient, k8s: ApiServer, enablePrivateDns: bool)
      ensures this.aws == aws && this.k8s == k8s && this.enablePrivateDns == enablePrivateDns
      ensures cache == map[] && unseen == {} && !clientReady
    {
      this.aws, this.k8s, this.enablePrivateDns := aws, k8s, enablePrivateDns;
      vpce, status := k8s.stored, k8s.status;
      clusterTag, clientReady, cache, unseen := "", false, map[], {};
    }

    ghost function EnvOf(): Env
      reads this, aws, k8s
    {
      Env(vpce.name, vpce.spec, vpce.deleting, clusterTag, aws.catalog, k8s.lookups, aws.now, enablePrivateDns)
    }

    ghost function ViewOf(): View
      reads this, aws, k8s
    {
      View(status, k8s.status, aws.groups, aws.nextGroup, aws.endpoints, aws.nextEndpoint, aws.zones, aws.nextZone,
           cache, unseen, aws.answers, k8s.service, aws.mutations, aws.creations, k8s.serviceWrites,
           aws.lost, k8s.failedWrites, aws.budget, k8s.budget)
    }

    /** The copy in memory is what is persisted. */
    ghost predicate Synced()
      reads this, k8s
    {
      k8s.present && vpce == k8s.stored && status == k8s.status
    }

    /** What parseClusterInfo leaves behind when it succeeds. */
    ghost predicate Parsed()
      reads this
    {
      && status.infra != ""
      && status.vpc != NO_ID
      && Naming.GetClusterLegacyTagKey(status.infra) == Ok(clusterTag)
    }

    /** Status().Update with the copy in memory. */
    method SaveStatus() returns (r: Result<()>)
      modifies k8s`status, k8s`failedWrites, k8s`budget
      ensures Spent(old(k8s.budget), old(k8s.failedWrites), k8s.budget, k8s.failedWrites)
      ensures r.Ok? ==> k8s.budget == old(k8s.budget) && k8s.status == status
      ensures k8s.status == old(k8s.status) || k8s.status == status
      ensures r.Err? ==> (k8s.budget < old(k8s.budget) && k8s.failedWrites > old(k8s.failedWrites)) || !k8s.present
      ensures r.Err? ==> r.error != Dependency
    {
      r := k8s.UpdateStatus(status);
    }
  }

  function GroupName(st: Status, name: string): Result<string> {
    Naming.GenerateSecurityGroupName(st.infra, name)
  }

  function EndpointName(st: Status, name: string): Result<string> {
    Naming.GenerateVPCEndpointName(st.infra, name)
  }

  /** What is made for one CR belongs to no other: its tags are those of a CR exactly when that has the same infra id
      and the same name. The namespace is in neither tag, so two CRs of one name in one cluster share their
      resources. */
  lemma OwnedByOne(st1: Status, name1: string, st2: Status, name2: string)
    requires st1.infra != "" && st2.infra != ""
    requires |st1.infra| + 1 + |name1| <= 251 && |st2.infra| + 1 + |name2| <= 251
    ensures var key1, key2 :=
      Naming.GetClusterLegacyTagKey(st1.infra).value, Naming.GetClusterLegacyTagKey(st2.infra).value;
            && (Owned(Tags(GroupName(st1, name1).value, {key1}, true, true), GroupName(st2, name2).value, key2) <==>
                  st1.infra == st2.infra && name1 == name2)
            && (Owned(Tags(EndpointName(st1, name1).value, {key1}, true, true), EndpointName(st2, name2).value,
                  key2) <==>
                  st1.infra == st2.infra && name1 == name2)
  {
    Naming.UncutNames(st1.infra, name1);
    Naming.UncutNames(st2.infra, name2);
    if st1.infra != st2.infra || name1 != name2 {
      if Naming.GetClusterLegacyTagKey(st1.infra) == Naming.GetClusterLegacyTagKey(st2.infra) {
        if GroupName(st1, name1) == GroupName(st2, name2) || EndpointName(st1, name1) == EndpointName(st2, name2) {
          Naming.GivenNamesIdentifyOwner(st1.infra, name1, st2.infra, name2);
          assert false;
        }
      }
    }
  }
}
