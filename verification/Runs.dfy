/** Whole runs: any number of reconciles, interleaved with whatever the environment does. */
module Runs {
  import opened Aws
  import opened Kube
  import opened Reconciler
  import opened HostedZoneCache
  import opened DnsStage
  import opened EndpointStage
  import opened ClusterInfo
  import opened Cleanup
  import opened Validation
  import opened Controller
  import Groups = SecurityGroupStage
  import opened Rules
  import Naming

  // ---- the environment ----

  /** One step of a run: a reconcile, or something that users, AWS and its other clients do. Reconciles of other CRs
      share the zone cache; what they do to it is to look a zone up and to forget an entry. */
  datatype Action =
    | Pass
    | Wait(seconds: nat)
    | Faults(aws: nat, k8s: nat)
    | MarkDeleted
    | EditSpec(spec: Spec)
    | Change(lookups: Lookups)
    | ServiceTurns(service: Option<string>)
    | CatalogTurns(catalog: Catalog)
    | EndpointTurns(endpoint: Id, state: EndpointState)
    | EndpointDrifts(endpoint: Id, subnets: set<Id>, attached: set<Id>, privateDns: bool)
    | EndpointVanishes(endpoint: Id)
    | EndpointAppears(e: Endpoint)
    | GroupDrifts(group: Id, managed: bool, rules: seq<Rule>)
    | GroupVanishes(group: Id)
    | GroupAppears(g: Group)
    | ZoneDrifts(zone: Id, tags: Tags, records: map<RecordKey, RecordValue>)
    | ZoneTurns(zone: Id, vpcs: set<Id>)
    | ZoneVanishes(zone: Id)
    | ZoneAppears(z: Zone)
    | Look(ref: ZoneRef)
    | Forget(ref: ZoneRef)

  const NO_STATUS := Status("", "", NO_ID, NO_ID, NO_ID, NoZone, "", Unset, Unset, Unset, Unset, Unset)

  function InfraStatus(infra: string): Status {
    NO_STATUS.(infra := infra)
  }

  /** Nobody else uses the CR's tags, the infra id that can be read does not change, and a CR does not become one of a
      hosted control plane or stop being one. */
  predicate Admissible(a: Action, e: Env, infra: string) {
    match a
    case EndpointAppears(x) => !Owned(x.tags, EndpointTag(e, InfraStatus(infra)), e.cluster)
    case GroupAppears(x) => !Owned(x.tags, GroupTag(e, InfraStatus(infra)), e.cluster)
    case Change(l) => InfraOf(e.spec.dns, l).Some? ==> InfraOf(e.spec.dns, l).value == infra
    case EditSpec(s) => IsHcp(s.dns) == IsHcp(e.spec.dns)
    case _ => true
  }

  function EndpointsAfter(a: Action, m: map<Id, Endpoint>, next: Id): map<Id, Endpoint> {
    match a
    case EndpointTurns(i, state) => if i in m then m[i := m[i].(state := state)] else m
    case EndpointDrifts(i, subnets, attached, private) =>
      if i in m then m[i := m[i].(subnets := subnets, groups := attached, privateDns := private)] else m
    case EndpointVanishes(i) => m - {i}
    case EndpointAppears(x) => m[next := x]
    case _ => m
  }

  function GroupsAfter(a: Action, m: map<Id, Group>, next: Id): map<Id, Group> {
    match a
    case GroupDrifts(i, managed, rules) =>
      if i in m then m[i := m[i].(tags := m[i].tags.(managed := managed), rules := rules)] else m
    case GroupVanishes(i) => m - {i}
    case GroupAppears(x) => m[next := x]
    case _ => m
  }

  function ZonesAfter(a: Action, m: map<Id, Zone>, next: Id): map<Id, Zone> {
    match a
    case ZoneDrifts(i, tags, records) => if i in m then m[i := m[i].(tags := tags, records := records)] else m
    case ZoneTurns(i, vpcs) => if i in m then m[i := m[i].(vpcs := vpcs)] else m
    case ZoneVanishes(i) => m - {i}
    case ZoneAppears(x) => m[next := x]
    case _ => m
  }

  /** The VPCs in one of the two sets only. */
  function Differences(s: set<Id>, t: set<Id>): set<Id> {
    (s - t) + (t - s)
  }

  /** Whether AWS is asked about a zone, and answers. */
  predicate Looked(a: Action, cache: map<ZoneRef, CacheEntry>, zones: map<Id, Zone>, now: nat) {
    a.Look? && !Fresh(cache, a.ref, now) && LiveZone(a.ref, zones)
  }

  function CacheAfter(a: Action, cache: map<ZoneRef, CacheEntry>, zones: map<Id, Zone>, now: nat)
    : map<ZoneRef, CacheEntry>
  {
    if Looked(a, cache, zones, now) then cache[a.ref := CacheEntry(zones[a.ref.n].name, zones[a.ref.n].vpcs, now)]
    else if a.Forget? || (a.Look? && !Fresh(cache, a.ref, now)) then cache - {a.ref}
    else cache
  }

  function AnswersAfter(a: Action, answers: set<(nat, ZoneRef, ZoneInfo)>, cache: map<ZoneRef, CacheEntry>,
                        zones: map<Id, Zone>, now: nat): set<(nat, ZoneRef, ZoneInfo)>
  {
    if Looked(a, cache, zones, now) then answers + {(now, a.ref, Info(a.ref.n, zones[a.ref.n]))} else answers
  }

  /** Nobody tells the operator about other clients' associations. */
  function UnseenAfter(a: Action, unseen: set<(ZoneRef, Id)>, cache: map<ZoneRef, CacheEntry>, zones: map<Id, Zone>,
                       now: nat): set<(ZoneRef, Id)>
  {
    if a.ZoneTurns? && a.zone in zones then Missed(unseen, a.zone, Differences(zones[a.zone].vpcs, a.vpcs))
    else if Looked(a, cache, zones, now) then Answered(unseen, a.ref)
    else unseen
  }

  /** What the environment's actions do to AWS, the service and the cache. */
  function Acted(e: Env, v: View, a: Action): View {
    v.(endpoints := EndpointsAfter(a, v.endpoints, v.nextEndpoint), nextEndpoint := v.nextEndpoint
      + if a.EndpointAppears? then 1 else 0,
       groups := GroupsAfter(a, v.groups, v.nextGroup), nextGroup := v.nextGroup + if a.GroupAppears? then 1 else 0,
       zones := ZonesAfter(a, v.zones, v.nextZone), nextZone := v.nextZone + if a.ZoneAppears? then 1 else 0,
       cache := CacheAfter(a, v.cache, v.zones, e.now), unseen := UnseenAfter(a, v.unseen, v.cache, v.zones, e.now),
       answers := AnswersAfter(a, v.answers, v.cache, v.zones, e.now), service := if a.ServiceTurns? then a.service
         else v.service,
       awsBudget := v.awsBudget + if a.Faults? then a.aws else 0, k8sBudget := v.k8sBudget + if a.Faults? then a.k8s
         else 0)
  }

  /** And to what a reconcile takes as given. */
  function EnvAfter(a: Action, e: Env): Env {
    match a
    case Wait(n) => e.(now := e.now + n)
    case MarkDeleted => e.(deleting := true)
    case EditSpec(s) => e.(spec := s)
    case Change(l) => e.(lookups := l)
    case CatalogTurns(c) => e.(catalog := c)
    case _ => e
  }

  lemma GroupTagOf(e: Env, st: Status, infra: string)
    ensures GroupTag(e, st.(infra := infra)) == GroupTag(e, InfraStatus(infra))
    ensures EndpointTag(e, st.(infra := infra)) == EndpointTag(e, InfraStatus(infra))
  {
  }

  lemma ActionKeepsGroups(e: Env, infra: string, v: View, a: Action)
    requires Admissible(a, e, infra)
    requires Groups.GroupsInv(v.kept.group, v.kept.vpc, v.groups, v.nextGroup, GroupTag(e, InfraStatus(infra)),
      e.cluster)
    ensures var w := Acted(e, v, a);
            Groups.GroupsInv(w.kept.group, w.kept.vpc, w.groups, w.nextGroup, GroupTag(e, InfraStatus(infra)),
              e.cluster)
  {
    hide GroupTag, EndpointTag, InfraOf;
  }

  lemma ActionKeepsEndpoints(e: Env, infra: string, v: View, a: Action)
    requires Admissible(a, e, infra)
    requires EndpointsInv(v.kept.endpoint, v.kept.vpc, v.endpoints, v.nextEndpoint, EndpointTag(e, InfraStatus(infra)),
      e.cluster)
    ensures var w := Acted(e, v, a);
            EndpointsInv(w.kept.endpoint, w.kept.vpc, w.endpoints, w.nextEndpoint, EndpointTag(e, InfraStatus(infra)),
              e.cluster)
  {
    hide GroupTag, EndpointTag, InfraOf;
  }

  lemma ZoneTurnKnown(cache: map<ZoneRef, CacheEntry>, unseen: set<(ZoneRef, Id)>, zones: map<Id, Zone>, next: Id,
                      now: nat,
                      zone: Id, vpcs: set<Id>)
    requires Accounted(cache, unseen, zones, next, now) && zone in zones
    ensures Accounted(cache, Missed(unseen, zone, Differences(zones[zone].vpcs, vpcs)),
                      zones[zone := zones[zone].(vpcs := vpcs)], next, now)
  {
    var unseen', zones' :=
      Missed(unseen, zone, Differences(zones[zone].vpcs, vpcs)), zones[zone := zones[zone].(vpcs := vpcs)];
    forall k | k in cache && k.n in zones'
      ensures Explained(k, cache[k], zones'[k.n], unseen')
    {
      assert Explained(k, cache[k], zones[k.n], unseen);
    }
  }

  lemma AccountedSubset(cache: map<ZoneRef, CacheEntry>, cache': map<ZoneRef, CacheEntry>, unseen: set<(ZoneRef, Id)>,
                        zones: map<Id, Zone>, next: Id, now: nat)
    requires Accounted(cache, unseen, zones, next, now) && forall k | k in cache' :: k in cache && cache'[k] == cache[k]
    ensures Accounted(cache', unseen, zones, next, now)
  {
  }

  lemma ActionKeepsCacheKnown(e: Env, v: View, a: Action)
    requires CacheKnown(e, v)
    ensures CacheKnown(EnvAfter(a, e), Acted(e, v, a))
  {
    hide Explained;
    var e', w := EnvAfter(a, e), Acted(e, v, a);
    if a.ZoneTurns? && a.zone in v.zones {
      ZoneTurnKnown(v.cache, v.unseen, v.zones, v.nextZone, e.now, a.zone, a.vpcs);
    } else if Looked(a, v.cache, v.zones, e.now) {
      AccountedAnswer(v.cache, v.unseen, v.zones, v.nextZone, e.now, a.ref);
    } else {
      AccountedElsewhere(v.cache, v.unseen, v.zones, v.nextZone, w.zones, w.nextZone, e.now);
      AccountedSubset(v.cache, w.cache, w.unseen, w.zones, w.nextZone, e.now);
    }
    AccountedLater(w.cache, w.unseen, w.zones, w.nextZone, e.now, e'.now);
  }

  lemma ActionKeepsWitnessed(e: Env, v: View, a: Action)
    requires Witnessed(v.cache, v.answers)
    ensures Witnessed(Acted(e, v, a).cache, Acted(e, v, a).answers)
  {
  }

  /** What holds between reconciles survives the environment. */
  lemma ActionKeepsSafe(e: Env, infra: string, v: View, a: Action)
    requires Safe(e, infra, v) && Admissible(a, e, infra)
    ensures Safe(EnvAfter(a, e), infra, Acted(e, v, a))
  {
    hide Groups.GroupsInv, EndpointsInv, Witnessed, Accounted, Naming.GenerateName;
    var e' := EnvAfter(a, e);
    GroupTagOf(e, v.kept, infra);
    GroupTagOf(e', v.kept, infra);
    ActionKeepsGroups(e, infra, v, a);
    ActionKeepsEndpoints(e, infra, v, a);
    ActionKeepsCacheKnown(e, v, a);
    ActionKeepsWitnessed(e, v, a);
  }

  lemma SafeAnytime(e: Env, e': Env, infra: string, v: View)
    requires Safe(e, infra, v) && e' == e.(now := e'.now) && e.now <= e'.now
    ensures Safe(e', infra, v)
  {
    ActionKeepsSafe(e, infra, v, Wait(e'.now - e.now));
    assert Acted(e, v, Wait(e'.now - e.now)) == v;
  }

  method ActOnEndpoints(aws: AwsClient, a: Action)
    modifies aws`endpoints, aws`nextEndpoint
    ensures aws.endpoints == EndpointsAfter(a, old(aws.endpoints), old(aws.nextEndpoint))
    ensures aws.nextEndpoint == old(aws.nextEndpoint) + if a.EndpointAppears? then 1 else 0
  {
    match a {
      case EndpointTurns(i, state) =>
        if i in aws.endpoints {
          aws.endpoints := aws.endpoints[i := aws.endpoints[i].(state := state)];
        }
      case EndpointDrifts(i, subnets, attached, private) =>
        if i in aws.endpoints {
          aws.endpoints :=
            aws.endpoints[i := aws.endpoints[i].(subnets := subnets, groups := attached, privateDns := private)];
        }
      case EndpointVanishes(i) => aws.endpoints := aws.endpoints - {i};
      case EndpointAppears(x) =>
        var id: RealId := aws.nextEndpoint;
        aws.endpoints, aws.nextEndpoint := aws.endpoints[id := x], id + 1;
      case _ =>
    }
  }

  method ActOnGroups(aws: AwsClient, a: Action)
    modifies aws`groups, aws`nextGroup
    ensures aws.groups == GroupsAfter(a, old(aws.groups), old(aws.nextGroup))
    ensures aws.nextGroup == old(aws.nextGroup) + if a.GroupAppears? then 1 else 0
  {
    match a {
      case GroupDrifts(i, managed, rules) =>
        if i in aws.groups {
          aws.groups := aws.groups[i :=
            aws.groups[i].(tags := aws.groups[i].tags.(managed := managed), rules := rules)];
        }
      case GroupVanishes(i) => aws.groups := aws.groups - {i};
      case GroupAppears(x) =>
        var id: RealId := aws.nextGroup;
        aws.groups, aws.nextGroup := aws.groups[id := x], id + 1;
      case _ =>
    }
  }

  method ActOnCache(r: VpcEndpointReconciler, a: Action)
    modifies r`cache, r`unseen, r.aws`answers
    ensures r.cache == CacheAfter(a, old(r.cache), r.aws.zones, r.aws.now)
    ensures r.aws.answers == AnswersAfter(a, old(r.aws.answers), old(r.cache), r.aws.zones, r.aws.now)
    ensures !a.ZoneTurns? ==> r.unseen == UnseenAfter(a, old(r.unseen), old(r.cache), r.aws.zones, r.aws.now)
    ensures a.ZoneTurns? ==> r.unseen == old(r.unseen)
  {
    if Looked(a, r.cache, r.aws.zones, r.aws.now) {
      r.aws.answers := r.aws.answers + {(r.aws.now, a.ref, Info(a.ref.n, r.aws.zones[a.ref.n]))};
      r.cache := r.cache[a.ref := CacheEntry(r.aws.zones[a.ref.n].name, r.aws.zones[a.ref.n].vpcs, r.aws.now)];
      r.unseen := Answered(r.unseen, a.ref);
    } else if a.Forget? || (a.Look? && !Fresh(r.cache, a.ref, r.aws.now)) {
      r.cache := r.cache - {a.ref};
    }
  }

  method ActOnZones(r: VpcEndpointReconciler, a: Action)
    modifies r`unseen, r.aws`zones, r.aws`nextZone
    ensures r.aws.zones == ZonesAfter(a, old(r.aws.zones), old(r.aws.nextZone))
    ensures r.aws.nextZone == old(r.aws.nextZone) + if a.ZoneAppears? then 1 else 0
    ensures a.ZoneTurns? ==> r.unseen == UnseenAfter(a, old(r.unseen), r.cache, old(r.aws.zones), r.aws.now)
    ensures !a.ZoneTurns? ==> r.unseen == old(r.unseen)
  {
    var aws := r.aws;
    match a {
      case ZoneDrifts(i, tags, records) =>
        if i in aws.zones {
          aws.zones := aws.zones[i := aws.zones[i].(tags := tags, records := records)];
        }
      case ZoneTurns(i, vpcs) =>
        if i in aws.zones {
          r.unseen := Missed(r.unseen, i, Differences(aws.zones[i].vpcs, vpcs));
          aws.zones := aws.zones[i := aws.zones[i].(vpcs := vpcs)];
        }
      case ZoneVanishes(i) => aws.zones := aws.zones - {i};
      case ZoneAppears(x) =>
        var id: RealId := aws.nextZone;
        aws.zones, aws.nextZone := aws.zones[id := x], id + 1;
      case _ =>
    }
  }

  /** Time that passes, calls that are going to fail, and what the operator only reads. */
  method ActOnCalls(aws: AwsClient, a: Action)
    modifies aws`now, aws`budget, aws`catalog
    ensures aws.catalog == if a.CatalogTurns? then a.catalog else old(aws.catalog)
    ensures aws.budget == old(aws.budget) + if a.Faults? then a.aws else 0
    ensures aws.now == old(aws.now) + if a.Wait? then a.seconds else 0
  {
    if a.Wait? {
      aws.now := aws.now + a.seconds;
    } else if a.Faults? {
      aws.budget := aws.budget + a.aws;
    } else if a.CatalogTurns? {
      aws.catalog := a.catalog;
    }
  }

  method ActOnZonesAndCache(r: VpcEndpointReconciler, a: Action)
    modifies r`cache, r`unseen, r.aws`answers, r.aws`zones, r.aws`nextZone
    ensures r.aws.zones == ZonesAfter(a, old(r.aws.zones), old(r.aws.nextZone))
    ensures r.aws.nextZone == old(r.aws.nextZone) + if a.ZoneAppears? then 1 else 0
    ensures r.cache == CacheAfter(a, old(r.cache), old(r.aws.zones), r.aws.now)
    ensures r.aws.answers == AnswersAfter(a, old(r.aws.answers), old(r.cache), old(r.aws.zones), r.aws.now)
    ensures r.unseen == UnseenAfter(a, old(r.unseen), old(r.cache), old(r.aws.zones), r.aws.now)
  {
    hide ZonesAfter, CacheAfter, AnswersAfter, UnseenAfter;
    ActOnCache(r, a);
    CacheKeepsStill(a, old(r.unseen), old(r.cache), r.cache, r.aws.zones, r.aws.now);
    ActOnZones(r, a);
  }

  lemma CacheKeepsStill(a: Action, unseen: set<(ZoneRef, Id)>, cache: map<ZoneRef, CacheEntry>,
                        cache': map<ZoneRef, CacheEntry>, zones: map<Id, Zone>, now: nat)
    ensures a.ZoneTurns? ==> UnseenAfter(a, unseen, cache', zones, now) == UnseenAfter(a, unseen, cache, zones, now)
  {
  }

  /** Users' actions on the CR and the objects around it. */
  method ActOnCluster(k8s: ApiServer, a: Action)
    modifies k8s`budget, k8s`stored, k8s`lookups, k8s`service
    ensures k8s.budget == old(k8s.budget) + if a.Faults? then a.k8s else 0
    ensures k8s.stored == match a
                          case MarkDeleted => old(k8s.stored).(deleting := true)
                          case EditSpec(s) => old(k8s.stored).(spec := s)
                          case _ => old(k8s.stored)
    ensures k8s.lookups == if a.Change? then a.lookups else old(k8s.lookups)
    ensures k8s.service == if a.ServiceTurns? then a.service else old(k8s.service)
  {
    match a {
      case Faults(_, n) => k8s.budget := k8s.budget + n;
      case MarkDeleted => k8s.stored := k8s.stored.(deleting := true);
      case EditSpec(s) => k8s.stored := k8s.stored.(spec := s);
      case Change(l) => k8s.lookups := l;
      case ServiceTurns(s) => k8s.service := s;
      case _ =>
    }
  }

  /** The environment's actions on AWS, and what they mean for the cache. */
  method ActOnAws(r: VpcEndpointReconciler, a: Action, ghost e: Env)
    requires e.now == r.aws.now
    modifies r`cache, r`unseen, r.aws`answers, r.aws`catalog
    modifies r.aws`now, r.aws`budget, r.aws`endpoints, r.aws`nextEndpoint, r.aws`groups, r.aws`nextGroup, r.aws`zones
    modifies r.aws`nextZone
    ensures var v := old(r.ViewOf());
            r.ViewOf() == Acted(e, v, a).(service := v.service, k8sBudget := v.k8sBudget)
    ensures r.aws.catalog == (if a.CatalogTurns? then a.catalog else old(r.aws.catalog))
    ensures r.aws.now == old(r.aws.now) + if a.Wait? then a.seconds else 0
  {
    hide EndpointsAfter, GroupsAfter, ZonesAfter, UnseenAfter, CacheAfter, AnswersAfter;
    ActOnZonesAndCache(r, a);
    ActOnCalls(r.aws, a);
    ActOnEndpoints(r.aws, a);
    ActOnGroups(r.aws, a);
  }

  /** The environment's part of a run. */
  method Act(r: VpcEndpointReconciler, a: Action, ghost infra: string)
    requires Safe(CrEnv(r, infra), infra, r.ViewOf()) && Admissible(a, CrEnv(r, infra), infra)
    modifies r`cache, r`unseen, r.aws`answers, r.aws`catalog
    modifies r.aws`now, r.aws`budget, r.aws`endpoints, r.aws`nextEndpoint, r.aws`groups, r.aws`nextGroup, r.aws`zones
    modifies r.aws`nextZone
    modifies r.k8s`budget, r.k8s`stored, r.k8s`lookups, r.k8s`service
    ensures Safe(CrEnv(r, infra), infra, r.ViewOf())
    ensures r.ViewOf() == Acted(old(CrEnv(r, infra)), old(r.ViewOf()), a)
      && CrEnv(r, infra) == EnvAfter(a, old(CrEnv(r, infra)))
    ensures r.k8s.stored.finalizer == old(r.k8s.stored.finalizer) && r.k8s.status == old(r.k8s.status)
  {
    hide Safe, Admissible, EndpointsAfter, GroupsAfter, ZonesAfter, UnseenAfter, CacheAfter, AnswersAfter, EndpointTag,
         GroupTag;
    ghost var e, v := CrEnv(r, infra), r.ViewOf();
    ActOnAws(r, a, e);
    ActOnCluster(r.k8s, a);
    ActionKeepsSafe(e, infra, v, a);
  }

  // ---- safety over every run ----

  /** Whether a reconcile that left the CR in this state should not have created anything, but has. */
  function Strays(created: int, vpce: VpcEndpoint): nat {
    if created != 0 && (vpce.deleting || !vpce.finalizer) then 1 else 0
  }

  predicate NeverDeleted(schedule: seq<Action>) {
    forall a | a in schedule :: !a.MarkDeleted?
  }

  /** Every cache entry still in use is what AWS would answer now exactly when its zone exists and no change of its VPCs
      went unseen. */
  ghost predicate CacheExact(cache: map<ZoneRef, CacheEntry>, unseen: set<(ZoneRef, Id)>, zones: map<Id, Zone>,
                             now: nat) {
    forall k | Fresh(cache, k, now) ::
      AgreesAt(cache, k, zones, now) <==> LiveZone(k, zones) && forall x :: (k, x) !in unseen
  }

  lemma SafeCacheExact(e: Env, infra: string, v: View)
    requires Safe(e, infra, v)
    ensures CacheExact(v.cache, v.unseen, v.zones, e.now)
  {
    forall k | Fresh(v.cache, k, e.now)
      ensures AgreesAt(v.cache, k, v.zones, e.now) <==> LiveZone(k, v.zones) && forall x :: (k, x) !in v.unseen
    {
      AgreesIff(v.cache, v.unseen, v.zones, v.nextZone, e.now, k);
    }
  }

  /** A schedule of steps in any order. Whatever fails and whatever others do, at most one group and one endpoint carry
      the CR's tags, both in the VPC that is recorded once and for all; nothing is created while the CR is being deleted
      or before its finalizer is persisted (`stray` counts such creations); the zone cache differs from AWS exactly in
      the changes that went unseen. */
  method Operate(r: VpcEndpointReconciler, schedule: seq<Action>, ghost infra: string) returns (ghost stray: nat)
    requires Safe(CrEnv(r, infra), infra, r.ViewOf())
    requires forall a | a in schedule :: Admissible(a, CrEnv(r, infra), infra)
    modifies r, r.k8s, r.aws
    ensures Safe(CrEnv(r, infra), infra, r.ViewOf())
    ensures old(r.k8s.status.vpc) != NO_ID ==> r.k8s.status.vpc == old(r.k8s.status.vpc)
    ensures stray == 0
    ensures CacheExact(r.cache, r.unseen, r.aws.zones, r.aws.now)
    ensures NeverDeleted(schedule) && old(r.k8s.present && !r.k8s.stored.deleting) ==>
      r.k8s.present && !r.k8s.stored.deleting
  {
    hide Safe, Admissible, CacheExact, NeverDeleted, EnvAfter, Acted;
    stray := 0;
    ghost var name, hcp := r.k8s.stored.name, IsHcp(r.k8s.stored.spec.dns);
    for i := 0 to |schedule|
      invariant Safe(CrEnv(r, infra), infra, r.ViewOf())
      invariant r.k8s.stored.name == name && IsHcp(r.k8s.stored.spec.dns) == hcp
      invariant old(r.k8s.status.vpc) != NO_ID ==> r.k8s.status.vpc == old(r.k8s.status.vpc)
      invariant stray == 0
      invariant NeverDeleted(schedule) && old(r.k8s.present && !r.k8s.stored.deleting) ==>
        r.k8s.present && !r.k8s.stored.deleting
    {
      assert Admissible(schedule[i], CrEnv(r, infra), infra) by {
        AdmissibleAnytime(schedule[i], old(CrEnv(r, infra)), CrEnv(r, infra), infra);
      }
      if schedule[i] == Pass {
        ghost var before := r.aws.creations;
        SafePass(r, infra);
        stray := stray + Strays(r.aws.creations - before, r.k8s.stored);
      } else {
        StaysLive(schedule, i);
        KindStays(schedule[i], CrEnv(r, infra), infra);
        Act(r, schedule[i], infra);
      }
    }
    SafeCacheExact(CrEnv(r, infra), infra, r.ViewOf());
  }

  lemma StaysLive(schedule: seq<Action>, i: nat)
    requires i < |schedule|
    ensures NeverDeleted(schedule) ==> !schedule[i].MarkDeleted?
  {
  }

  lemma KindStays(a: Action, e: Env, infra: string)
    requires Admissible(a, e, infra)
    ensures IsHcp(EnvAfter(a, e).spec.dns) == IsHcp(e.spec.dns) && EnvAfter(a, e).name == e.name
    ensures !a.MarkDeleted? ==> EnvAfter(a, e).deleting == e.deleting
  {
    hide InfraOf, GroupTag, EndpointTag;
  }

  lemma AdmissibleAnytime(a: Action, e: Env, e': Env, infra: string)
    requires Admissible(a, e, infra) && e'.name == e.name && e'.cluster == e.cluster
    requires IsHcp(e'.spec.dns) == IsHcp(e.spec.dns)
    ensures Admissible(a, e', infra)
  {
    hide Naming.GenerateName;
  }

  /** A reconcile keeps what holds between reconciles. */
  method SafePass(r: VpcEndpointReconciler, ghost infra: string)
    requires Safe(CrEnv(r, infra), infra, r.ViewOf())
    modifies r, r.k8s, r.aws
    ensures Safe(CrEnv(r, infra), infra, r.ViewOf())
    ensures r.k8s.stored == old(r.k8s.stored).(finalizer := r.k8s.stored.finalizer)
    ensures r.k8s.lookups == old(r.k8s.lookups) && r.aws.catalog == old(r.aws.catalog)
    ensures old(r.k8s.status.vpc) != NO_ID ==> r.k8s.status.vpc == old(r.k8s.status.vpc)
    ensures r.aws.creations != old(r.aws.creations) ==> !r.k8s.stored.deleting && r.k8s.stored.finalizer
    ensures old(r.k8s.present) && !r.k8s.stored.deleting ==> r.k8s.present
  {
    hide Safe, InputsFilled, LiveRel, AnswerRel, DeletionRel, InfraIs, NothingRecordedIsLeft;
    ghost var e, v := CrEnv(r, infra), r.ViewOf();
    SafeMeans(e, infra, v);
    ghost var seen;
    var out;
    out, seen := Reconcile(r, infra);
    SafeAnytime(e, CrEnv(r, infra), infra, r.ViewOf());
    VpcFilled(r.k8s.stored.spec, r.k8s.lookups, v.kept, r.k8s.status);
  }

  lemma VpcFilled(spec: Spec, l: Lookups, st: Status, st': Status)
    requires InputsFilled(spec, l, st, st')
    ensures st.vpc != NO_ID ==> st'.vpc == st.vpc
  {
  }

  // ---- runs of a CR that is not being deleted ----

  /** What a reconcile would find. */
  datatype Moment = Moment(e: Env, v: View)

  /** One step: a reconcile does what `Reconcile` promises, anything else is up to the environment. */
  ghost predicate Follows(infra: string, m: Moment, a: Action, n: Moment) {
    if a == Pass then n.e == m.e && LiveRel(m.e, infra, m.v, n.v)
    else !a.MarkDeleted? && Admissible(a, m.e, infra) && n == Moment(EnvAfter(a, m.e), Acted(m.e, m.v, a))
  }

  ghost predicate IsRun(infra: string, run: seq<Moment>, schedule: seq<Action>) {
    |run| == |schedule| + 1 && forall i | 0 <= i < |schedule| :: Follows(infra, run[i], schedule[i], run[i + 1])
  }

  method LivePass(r: VpcEndpointReconciler, ghost infra: string) returns (ok: bool)
    requires Safe(CrEnv(r, infra), infra, r.ViewOf()) && r.k8s.present && !r.k8s.stored.deleting
    modifies r, r.k8s, r.aws
    ensures Safe(CrEnv(r, infra), infra, r.ViewOf()) && r.k8s.present && CrEnv(r, infra) == old(CrEnv(r, infra))
    ensures r.k8s.stored == old(r.k8s.stored).(finalizer := r.k8s.stored.finalizer)
    ensures LiveRel(CrEnv(r, infra), infra, old(r.ViewOf()), r.ViewOf())
    ensures AnswerRel(CrEnv(r, infra), infra, old(r.ViewOf()), r.ViewOf(), ok)
  {
    hide Safe, InputsFilled, LiveRel, AnswerRel, DeletionRel, InfraIs, NothingRecordedIsLeft;
    ghost var e, v := CrEnv(r, infra), r.ViewOf();
    SafeMeans(e, infra, v);
    SafeInfra(e, infra, v);
    ghost var seen;
    var out;
    out, seen := Reconcile(r, infra);
    ok := out == RequeueAfter(15 * 60);
  }

  /** Executions are runs, so what holds of every run holds of every execution. */
  method Execute(r: VpcEndpointReconciler, schedule: seq<Action>, ghost infra: string) returns (ghost run: seq<Moment>)
    requires Safe(CrEnv(r, infra), infra, r.ViewOf()) && r.k8s.present && !r.k8s.stored.deleting
    requires NeverDeleted(schedule) && forall a | a in schedule :: Admissible(a, CrEnv(r, infra), infra)
    modifies r, r.k8s, r.aws
    ensures Safe(CrEnv(r, infra), infra, r.ViewOf()) && r.k8s.present && !r.k8s.stored.deleting
    ensures IsRun(infra, run, schedule)
    ensures run[0] == old(Moment(CrEnv(r, infra), r.ViewOf())) && run[|schedule|] == Moment(CrEnv(r, infra), r.ViewOf())
  {
    hide Safe, Admissible, NeverDeleted, Follows, LiveRel, AnswerRel, Acted, EnvAfter;
    run := [Moment(CrEnv(r, infra), r.ViewOf())];
    ghost var name, hcp := r.k8s.stored.name, IsHcp(r.k8s.stored.spec.dns);
    for i := 0 to |schedule|
      invariant Safe(CrEnv(r, infra), infra, r.ViewOf()) && r.k8s.present && !r.k8s.stored.deleting
      invariant r.k8s.stored.name == name && IsHcp(r.k8s.stored.spec.dns) == hcp
      invariant |run| == i + 1 && run[0] == old(Moment(CrEnv(r, infra), r.ViewOf()))
      invariant run[i] == Moment(CrEnv(r, infra), r.ViewOf())
      invariant forall j | 0 <= j < i :: Follows(infra, run[j], schedule[j], run[j + 1])
    {
      var a := schedule[i];
      AdmissibleAnytime(a, old(CrEnv(r, infra)), CrEnv(r, infra), infra);
      StaysLive(schedule, i);
      if a == Pass {
        var ok := LivePass(r, infra);
      } else {
        KindStays(a, CrEnv(r, infra), infra);
        Act(r, a, infra);
      }
      ghost var m := Moment(CrEnv(r, infra), r.ViewOf());
      StepFollows(infra, run[i], a, m);
      run := run + [m];
    }
  }

  lemma StepFollows(infra: string, m: Moment, a: Action, n: Moment)
    requires if a == Pass then n.e == m.e && LiveRel(m.e, infra, m.v, n.v)
             else !a.MarkDeleted? && Admissible(a, m.e, infra) && n == Moment(EnvAfter(a, m.e), Acted(m.e, m.v, a))
    ensures Follows(infra, m, a, n)
  {
    hide LiveRel, Admissible;
  }

  lemma FollowsKeepsSafe(infra: string, m: Moment, a: Action, n: Moment)
    requires Follows(infra, m, a, n) && Safe(m.e, infra, m.v)
    ensures Safe(n.e, infra, n.v)
  {
    hide Safe, Admissible, FastPath, AllDone, Healthy, Calm, RecordUndisturbed, StateFollows, ParseHealthy,
         RulesHealthy, InputsFilled, InputsCurrent, EndpointUntouched, ServiceFollows, Traces;
    if a != Pass {
      ActionKeepsSafe(m.e, infra, m.v, a);
    }
  }

  // ---- the record condition over every run ----

  /** An endpoint that carries the CR's tags but is not recorded yet does not become available or rejected before the
      operator has seen it. */
  predicate MayTurn(endpoints: map<Id, Endpoint>, recorded: Id, id: Id, state: EndpointState, name: string,
                    cluster: string) {
    id == recorded || !SettledState(state) || (id in endpoints ==> !Owned(endpoints[id].tags, name, cluster))
  }

  /** Other clients leave the recorded record and the default tags of its zone in place. */
  predicate KeepsZone(st: Status, tags: Tags, records: map<RecordKey, RecordValue>, cluster: string) {
    && (st.recordCond == CondTrue ==>
          var key := RecordKey(Fqdn(st.record), CNAME);
          key in records && records[key] == EndpointDns(st.endpoint))
    && (st.tagsCond == CondTrue ==> HasZoneTags(tags, cluster))
  }

  /** What nobody else does to a record that the status calls done: delete its zone, or change it there; move discovery
      to another zone, or make it ambiguous; ask for another record; turn a replacement endpoint before it was seen, or
      have it created that way. */
  ghost predicate LeavesRecordAlone(a: Action, e: Env, v: View, infra: string) {
    var st, recorded := v.kept, v.kept.recordCond == CondTrue || v.kept.tagsCond == CondTrue;
    && (a.ZoneVanishes? && recorded && st.zone != NoZone ==> a.zone != st.zone.n)
    && (a.ZoneDrifts? && recorded && st.zone != NoZone && a.zone == st.zone.n ==>
          KeepsZone(st, a.tags, a.records, e.cluster))
    && (a.ZoneAppears? || a.ZoneTurns? || a.Change? || a.EditSpec? ==>
          ChoiceHolds(EnvAfter(a, e).spec.dns, st, Acted(e, v, a).zones, EnvAfter(a, e).lookups))
    && (a.EditSpec? ==>
          && (st.recordCond == CondTrue ==> a.spec.dns.hostname == e.spec.dns.hostname)
          && (st.tagsCond == CondTrue ==> ModeOf(a.spec.dns) == ByDomain))
    && (a.CatalogTurns? ==> !SettledState(a.catalog.firstState))
    && (a.EndpointTurns? ==>
          MayTurn(v.endpoints, st.endpoint, a.endpoint, a.state, EndpointTag(e, InfraStatus(infra)), e.cluster))
  }

  /** In this run so it is throughout, and no write of the status fails. Any other call may. */
  ghost predicate RecordLeftAlone(infra: string, run: seq<Moment>, schedule: seq<Action>)
    requires |run| == |schedule| + 1
  {
    forall i | 0 <= i < |schedule| ::
      if schedule[i] == Pass then run[i + 1].v.failedWrites == run[i].v.failedWrites
      else LeavesRecordAlone(schedule[i], run[i].e, run[i].v, infra)
  }

  lemma ActionKeepsChoice(e: Env, v: View, a: Action, infra: string)
    requires LeavesRecordAlone(a, e, v, infra) && ChoiceHolds(e.spec.dns, v.kept, v.zones, e.lookups)
    ensures ChoiceHolds(EnvAfter(a, e).spec.dns, v.kept, Acted(e, v, a).zones, EnvAfter(a, e).lookups)
  {
    hide MayTurn, KeepsZone, EndpointTag;
    var zones' := Acted(e, v, a).zones;
    if !(a.ZoneAppears? || a.ZoneTurns? || a.Change? || a.EditSpec?) {
      assert forall i | i in zones' ::
        i in v.zones && zones'[i].name == v.zones[i].name && zones'[i].vpcs == v.zones[i].vpcs;
    }
  }

  lemma ActionKeepsRecord(e: Env, v: View, a: Action, infra: string)
    requires LeavesRecordAlone(a, e, v, infra) && ZoneIds(v.zones, v.nextZone)
    requires RecordTrue(v.kept, v.zones) && RecordAsked(e.spec.dns, v.kept, v.zones)
      && TagsTrue(e.spec.dns, e.cluster, v.kept, v.zones)
    ensures var e', w := EnvAfter(a, e), Acted(e, v, a);
            RecordTrue(w.kept, w.zones) && RecordAsked(e'.spec.dns, w.kept, w.zones)
              && TagsTrue(e'.spec.dns, e'.cluster, w.kept, w.zones)
  {
    hide MayTurn, ChoiceHolds, EndpointTag, RecordName;
  }

  lemma ActionKeepsFirstSeen(e: Env, v: View, a: Action, infra: string)
    requires LeavesRecordAlone(a, e, v, infra) && Admissible(a, e, infra)
    requires FirstSeenUnsettled(e, v.(status := v.kept.(infra := infra)))
    ensures FirstSeenUnsettled(EnvAfter(a, e), Acted(e, v, a).(status := v.kept.(infra := infra)))
  {
    hide ChoiceHolds, KeepsZone, InfraOf;
    GroupTagOf(e, v.kept, infra);
    GroupTagOf(EnvAfter(a, e), v.kept, infra);
    assert EndpointTag(EnvAfter(a, e), InfraStatus(infra)) == EndpointTag(e, InfraStatus(infra));
    hide EndpointTag;
  }

  /** What the record and tags conditions stand for survives the environment's actions that leave the record alone. */
  lemma ActionKeepsFastPath(e: Env, infra: string, v: View, a: Action)
    requires FastPath(e, v.kept.(infra := infra), v) && Admissible(a, e, infra) && LeavesRecordAlone(a, e, v, infra)
    ensures FastPath(EnvAfter(a, e), v.kept.(infra := infra), Acted(e, v, a))
  {
    hide LeavesRecordAlone, Admissible, Explained, RecordName, IsClusterZone, FirstSeenUnsettled;
    hide EnvAfter, Acted;
    var e', w := EnvAfter(a, e), Acted(e, v, a);
    ActionKeepsChoice(e, v, a, infra);
    ActionKeepsRecord(e, v, a, infra);
    ActionKeepsFirstSeen(e, v, a, infra);
    ActionKeepsCacheKnown(e, v, a);
    NothingKeptChanges(e, v, a);
  }

  lemma NothingKeptChanges(e: Env, v: View, a: Action)
    ensures Acted(e, v, a).kept == v.kept
  {
  }

  lemma FollowsKeepsFastPath(infra: string, m: Moment, a: Action, n: Moment)
    requires Follows(infra, m, a, n) && Safe(m.e, infra, m.v) && FastPath(m.e, m.v.kept.(infra := infra), m.v)
    requires if a == Pass then n.v.failedWrites == m.v.failedWrites else LeavesRecordAlone(a, m.e, m.v, infra)
    ensures FastPath(n.e, n.v.kept.(infra := infra), n.v)
  {
    hide Safe, Admissible, LeavesRecordAlone, FastPath, AllDone, Healthy, Calm, RecordUndisturbed, StateFollows,
         ParseHealthy, RulesHealthy, InputsFilled, InputsCurrent, EndpointUntouched, ServiceFollows, Traces;
    if a != Pass {
      ActionKeepsFastPath(m.e, infra, m.v, a);
    }
  }

  /** What skipping the upsert relies on: a True record condition means that the recorded zone holds the record that the
      CR asks for with the DNS name of the recorded endpoint, so that the upsert would change nothing; and a True tags
      condition that the zone has the default tags. */
  ghost predicate ConditionsTrue(e: Env, v: View) {
    && (v.kept.recordCond == CondTrue ==>
          && RecordHolds(v.kept, v.zones)
          && Upserted(v.kept, RecordName(e.spec.dns.hostname, v.zones[v.kept.zone.n].name), v.zones) == v.zones)
    && TagsTold(v.kept, v.zones, e.cluster)
  }

  lemma FastPathMeans(e: Env, infra: string, v: View)
    requires FastPath(e, v.kept.(infra := infra), v)
    ensures ConditionsTrue(e, v)
  {
    if v.kept.recordCond == CondTrue {
      SkippedUpsertIsNoOp(e.spec.dns, v.kept, v.zones);
    }
  }

  /** The skipped upsert refines the repeated one: in every run in which nobody else disturbs the record and status
      writes succeed, whatever other calls fail, the conditions are true at every moment. */
  lemma {:induction false} KeepRecord(infra: string, run: seq<Moment>, schedule: seq<Action>, n: nat)
    requires IsRun(infra, run, schedule) && RecordLeftAlone(infra, run, schedule) && n <= |schedule|
    requires Safe(run[0].e, infra, run[0].v) && FastPath(run[0].e, run[0].v.kept.(infra := infra), run[0].v)
    ensures Safe(run[n].e, infra, run[n].v) && FastPath(run[n].e, run[n].v.kept.(infra := infra), run[n].v)
    ensures ConditionsTrue(run[n].e, run[n].v)
    decreases n
  {
    hide Safe, FastPath, Follows, LeavesRecordAlone;
    if n > 0 {
      KeepRecord(infra, run, schedule, n - 1);
      FollowsKeepsSafe(infra, run[n - 1], schedule[n - 1], run[n]);
      FollowsKeepsFastPath(infra, run[n - 1], schedule[n - 1], run[n]);
    }
    FastPathMeans(run[n].e, infra, run[n].v);
  }

  // ---- the zone cache over every run ----

  /** The zones keep their VPCs and the CR its DNS mode, as far as others are concerned. */
  predicate LeavesVpcsAlone(a: Action) {
    !a.ZoneTurns? && !a.ZoneVanishes? && !a.EditSpec?
  }

  lemma ActionKeepsCalm(e: Env, v: View, a: Action)
    requires Calm(e, v.kept, v) && LeavesVpcsAlone(a)
    ensures Calm(EnvAfter(a, e), v.kept, Acted(e, v, a))
  {
    var e', w := EnvAfter(a, e), Acted(e, v, a);
    forall k | k in w.cache
      ensures Fresh(w.cache, k, e'.now) ==> LiveZone(k, w.zones)
      ensures k.Bare? == BareMode(e.spec.dns, v.kept.zone) ==> AgreesAt(w.cache, k, w.zones, e'.now)
    {
      if k in v.cache && w.cache[k] == v.cache[k] {
        assert Fresh(w.cache, k, e'.now) ==> Fresh(v.cache, k, e.now);
      }
    }
  }

  lemma FollowsKeepsCalm(infra: string, m: Moment, a: Action, n: Moment)
    requires Follows(infra, m, a, n) && Calm(m.e, m.v.kept, m.v) && n.v.lost == m.v.lost && LeavesVpcsAlone(a)
    ensures Calm(n.e, n.v.kept, n.v)
  {
    hide Safe, Admissible, FastPath, AllDone, Healthy, Calm, RecordUndisturbed, StateFollows,
         ParseHealthy, RulesHealthy, InputsFilled, InputsCurrent, EndpointUntouched, ServiceFollows, Traces;
    if a != Pass {
      ActionKeepsCalm(m.e, m.v, a);
      NothingKeptChanges(m.e, m.v, a);
    }
  }

  /** In every run in which nobody else changes the VPCs of zones, whatever calls fail: as long as no association was
      carried out by a call that failed, everything cached for the CR is what AWS would answer. */
  lemma {:induction false} KeepCache(infra: string, run: seq<Moment>, schedule: seq<Action>, n: nat)
    requires IsRun(infra, run, schedule) && n <= |schedule| && forall a | a in schedule :: LeavesVpcsAlone(a)
    requires Safe(run[0].e, infra, run[0].v) && Calm(run[0].e, run[0].v.kept, run[0].v)
    ensures Safe(run[n].e, infra, run[n].v) && run[0].v.lost <= run[n].v.lost
    ensures CacheExact(run[n].v.cache, run[n].v.unseen, run[n].v.zones, run[n].e.now)
    ensures run[n].v.lost == run[0].v.lost ==> Calm(run[n].e, run[n].v.kept, run[n].v)
    decreases n
  {
    hide Safe, Calm, Follows, CacheExact;
    if n > 0 {
      KeepCache(infra, run, schedule, n - 1);
      FollowsKeepsSafe(infra, run[n - 1], schedule[n - 1], run[n]);
      LostCounts(infra, run[n - 1], schedule[n - 1], run[n]);
      if run[n].v.lost == run[0].v.lost {
        FollowsKeepsCalm(infra, run[n - 1], schedule[n - 1], run[n]);
      }
    }
    SafeCacheExact(run[n].e, infra, run[n].v);
  }

  lemma LostCounts(infra: string, m: Moment, a: Action, n: Moment)
    requires Follows(infra, m, a, n)
    ensures m.v.lost <= n.v.lost
  {
    hide Safe, Admissible, FastPath, AllDone, Healthy, Calm, RecordUndisturbed, StateFollows, ParseHealthy,
         RulesHealthy, InputsFilled, InputsCurrent, EndpointUntouched, ServiceFollows, Traces, EnvAfter;
  }

  // ---- a zone that cannot be used ----

  /** The recorded zone cannot be used, and its id is not one that AWS is still going to hand out. */
  predicate StuckForGood(e: Env, v: View) {
    Stuck(e, v.kept, v.zones) && (v.kept.zone != NoZone ==> v.kept.zone.n < v.nextZone)
  }

  lemma ActionKeepsStuck(e: Env, v: View, a: Action)
    requires StuckForGood(e, v) && !a.EditSpec?
    ensures StuckForGood(EnvAfter(a, e), Acted(e, v, a)) && Acted(e, v, a).kept == v.kept
  {
  }

  lemma FollowsKeepsStuck(infra: string, m: Moment, a: Action, n: Moment)
    requires Follows(infra, m, a, n) && StuckForGood(m.e, m.v) && !a.EditSpec?
    ensures StuckForGood(n.e, n.v) && n.v.kept.zone == m.v.kept.zone
  {
    hide Safe, Admissible, FastPath, AllDone, Healthy, Calm, RecordUndisturbed, StateFollows, ParseHealthy,
         RulesHealthy, InputsFilled, InputsCurrent, EndpointUntouched, ServiceFollows, ZoneHistory, CondsFollow;
    if a != Pass {
      ActionKeepsStuck(m.e, m.v, a);
    }
  }

  /** A recorded zone that cannot be used is never replaced: in every run, whatever else happens, it stays recorded and
      the CR is not done, until somebody edits the spec. */
  lemma {:induction false} KeepStuck(infra: string, run: seq<Moment>, schedule: seq<Action>, n: nat)
    requires IsRun(infra, run, schedule) && n <= |schedule| && forall a | a in schedule :: !a.EditSpec?
    requires StuckForGood(run[0].e, run[0].v)
    ensures StuckForGood(run[n].e, run[n].v) && run[n].v.kept.zone == run[0].v.kept.zone
    ensures !AllDone(run[n].e, run[n].v.kept, run[n].v)
    decreases n
  {
    hide Follows, StuckForGood, AllDone, Stuck;
    if n > 0 {
      KeepStuck(infra, run, schedule, n - 1);
      FollowsKeepsStuck(infra, run[n - 1], schedule[n - 1], run[n]);
    }
    StuckIsNotAllDone(run[n].e, run[n].v);
  }

  lemma StuckIsNotAllDone(e: Env, v: View)
    requires StuckForGood(e, v)
    ensures !AllDone(e, v.kept, v)
  {
    hide AllDone, Stuck;
    StuckIsUndone(e, v.kept, v);
  }

  // ---- the service that endpoints are for ----

  /** Of the endpoints with the CR's tags, those of the first moment keep their service, and every other one is for this
      service. */
  ghost predicate ServeOnly(infra: string, m: Moment, n: Moment, service: string) {
    forall i | i in n.v.endpoints && Owned(n.v.endpoints[i].tags, EndpointTag(n.e, InfraStatus(infra)), n.e.cluster) ::
      if i in m.v.endpoints then n.v.endpoints[i].service == m.v.endpoints[i].service
      else n.v.endpoints[i].service == service
  }

  lemma PassServes(e: Env, infra: string, v: View, w: View)
    requires LiveRel(e, infra, v, w) && Safe(e, infra, v)
    ensures v.nextEndpoint <= w.nextEndpoint && v.nextEndpoint !in v.endpoints
    ensures MadeForCr(v.endpoints, w.endpoints, v.nextEndpoint, w.kept.vpc, w.kept.service,
                      EndpointTag(e, InfraStatus(infra)), e.cluster)
    ensures w.nextEndpoint != v.nextEndpoint ==> w.kept.service != ""
    ensures forall i | i in w.endpoints :: i < w.nextEndpoint
  {
    hide FastPath, AllDone, Healthy, Calm, RecordUndisturbed, StateFollows, ParseHealthy, RulesHealthy, InputsFilled,
         InputsCurrent, EndpointUntouched, ServiceFollows, ZoneHistory, CondsFollow, RulesRefused, Stuck, Safe,
         MadeForCr;
    GroupTagOf(e, v.kept, infra);
    SafeIds(e, infra, v);
    SafeIds(e, infra, w);
  }

  lemma PassServesOnly(infra: string, m: Moment, l: Moment, n: Moment, service: string)
    requires n.e == l.e && LiveRel(l.e, infra, l.v, n.v) && Safe(l.e, infra, l.v) && ServeOnly(infra, m, l, service)
    requires n.v.kept.service == service || n.v.kept.service == ""
    requires m.v.nextEndpoint <= l.v.nextEndpoint && forall i | i in m.v.endpoints :: i < m.v.nextEndpoint
    ensures ServeOnly(infra, m, n, service) && m.v.nextEndpoint <= n.v.nextEndpoint
  {
    hide Safe, LiveRel, EndpointTag, Owned;
    PassServes(l.e, infra, l.v, n.v);
    forall i | i in n.v.endpoints && i !in l.v.endpoints
      ensures n.v.endpoints[i].service == service && i !in m.v.endpoints
    {
      assert i == l.v.nextEndpoint;
    }
  }

  lemma FollowsServes(infra: string, m: Moment, l: Moment, a: Action, n: Moment, service: string)
    requires Follows(infra, l, a, n) && Safe(l.e, infra, l.v) && ServeOnly(infra, m, l, service)
    requires n.v.kept.service == service || n.v.kept.service == ""
    requires m.v.nextEndpoint <= l.v.nextEndpoint && forall i | i in m.v.endpoints :: i < m.v.nextEndpoint
    ensures ServeOnly(infra, m, n, service) && m.v.nextEndpoint <= n.v.nextEndpoint
  {
    hide Safe, LiveRel, Naming.GenerateName;
    if a == Pass {
      PassServesOnly(infra, m, l, n, service);
    }
  }

  /** What the endpoints are for, in every run, whatever fails: an endpoint that was made for the CR is for the service
      recorded when it was made, here the only one the run records, and no endpoint is ever turned to another
      service. */
  lemma {:induction false} ServesRecorded(infra: string, run: seq<Moment>, schedule: seq<Action>, n: nat,
                                          service: string)
    requires IsRun(infra, run, schedule) && n <= |schedule| && Safe(run[0].e, infra, run[0].v)
    requires forall m | m in run :: m.v.kept.service == service || m.v.kept.service == ""
    ensures Safe(run[n].e, infra, run[n].v) && ServeOnly(infra, run[0], run[n], service)
    ensures run[0].v.nextEndpoint <= run[n].v.nextEndpoint
    decreases n
  {
    hide Safe, Follows, ServeOnly;
    SafeIds(run[0].e, infra, run[0].v);
    if n == 0 {
      ServesAtOnce(infra, run[0], service);
    } else {
      ServesRecorded(infra, run, schedule, n - 1, service);
      assert run[n] in run;
      FollowsServes(infra, run[0], run[n - 1], schedule[n - 1], run[n], service);
      FollowsKeepsSafe(infra, run[n - 1], schedule[n - 1], run[n]);
    }
  }

  lemma SafeIds(e: Env, infra: string, v: View)
    requires Safe(e, infra, v)
    ensures forall i | i in v.endpoints :: i < v.nextEndpoint
  {
  }

  lemma ServesAtOnce(infra: string, m: Moment, service: string)
    ensures ServeOnly(infra, m, m, service)
  {
  }

  // ---- rules that AWS rejects ----

  /** Nobody else gives the group the rules it lacks, or changes what the spec asks for. */
  predicate LeavesRulesAlone(a: Action, group: Id) {
    !a.MarkDeleted? && !a.EditSpec? && !a.CatalogTurns? && (a.GroupDrifts? || a.GroupVanishes? ==> a.group != group)
  }

  lemma ActionKeepsRefused(e: Env, infra: string, v: View, a: Action)
    requires RulesRefused(e, v.kept, v.groups) && LeavesRulesAlone(a, v.kept.group) && Safe(e, infra, v)
    ensures RulesRefused(EnvAfter(a, e), Acted(e, v, a).kept, Acted(e, v, a).groups) && Acted(e, v, a).kept == v.kept
  {
    hide Groups.RulesAcceptable, GroupTag, EndpointTag, EndpointsInv, Witnessed, Accounted, InfraOf;
  }

  lemma PassKeepsRefused(e: Env, infra: string, v: View, w: View, ok: bool)
    requires LiveRel(e, infra, v, w) && AnswerRel(e, infra, v, w, ok) && RulesRefused(e, v.kept, v.groups)
    ensures !ok && RulesRefused(e, w.kept, w.groups) && w.kept.group == v.kept.group
  {
    hide Safe, FastPath, AllDone, Healthy, Calm, RecordUndisturbed, StateFollows, ParseHealthy, RulesHealthy,
         InputsFilled, InputsCurrent, EndpointUntouched, ServiceFollows, ZoneHistory, CondsFollow, RulesRefused, Stuck;
  }

  lemma RefusedIsUndone(e: Env, v: View)
    requires RulesRefused(e, v.kept, v.groups)
    ensures !AllDone(e, v.kept, v)
  {
    hide EndpointReady, DnsDone;
  }

  /** A rule that the spec asks for twice, and that the group lacks: in every run, whatever fails and whatever others do
      to anything but the group's rules and the spec, no reconcile succeeds and the group never gets the rule. */
  method StayRefused(r: VpcEndpointReconciler, schedule: seq<Action>, ghost infra: string) returns (successes: nat)
    requires r.k8s.present && !r.k8s.stored.deleting && Safe(CrEnv(r, infra), infra, r.ViewOf())
    requires RulesRefused(CrEnv(r, infra), r.k8s.status, r.aws.groups)
    requires forall a | a in schedule ::
      Admissible(a, CrEnv(r, infra), infra) && LeavesRulesAlone(a, r.k8s.status.group)
    modifies r, r.k8s, r.aws
    ensures successes == 0 && !AllDone(CrEnv(r, infra), r.k8s.status, r.ViewOf())
    ensures RulesRefused(CrEnv(r, infra), r.k8s.status, r.aws.groups) && r.k8s.status.group == old(r.k8s.status.group)
  {
    hide Safe, Admissible, LeavesRulesAlone, RulesRefused, LiveRel, AnswerRel, Acted, EnvAfter, AllDone;
    successes := 0;
    ghost var name, hcp, group := r.k8s.stored.name, IsHcp(r.k8s.stored.spec.dns), r.k8s.status.group;
    for i := 0 to |schedule|
      invariant Safe(CrEnv(r, infra), infra, r.ViewOf()) && r.k8s.present && !r.k8s.stored.deleting
      invariant r.k8s.stored.name == name && IsHcp(r.k8s.stored.spec.dns) == hcp && r.k8s.status.group == group
      invariant RulesRefused(CrEnv(r, infra), r.k8s.status, r.aws.groups) && successes == 0
    {
      var a := schedule[i];
      ghost var e, v := CrEnv(r, infra), r.ViewOf();
      AdmissibleAnytime(a, old(CrEnv(r, infra)), e, infra);
      if a == Pass {
        var ok := LivePass(r, infra);
        PassKeepsRefused(e, infra, v, r.ViewOf(), ok);
        successes := successes + if ok then 1 else 0;
      } else {
        KindStays(a, e, infra);
        RulesAloneMeans(a, group);
        ActionKeepsRefused(e, infra, v, a);
        Act(r, a, infra);
      }
    }
    RefusedIsUndone(CrEnv(r, infra), r.ViewOf());
  }

  lemma RulesAloneMeans(a: Action, group: Id)
    requires LeavesRulesAlone(a, group)
    ensures !a.MarkDeleted?
  {
  }

  // ---- how many zones are created ----

  /** How many of the first n steps are reconciles that created a zone. */
  function ZonesMade(run: seq<Moment>, schedule: seq<Action>, n: nat): nat
    requires |run| == |schedule| + 1 && n <= |schedule|
  {
    if n == 0 then 0
    else ZonesMade(run, schedule, n - 1) + if schedule[n - 1] == Pass && run[n].v.nextZone != run[n - 1].v.nextZone
      then 1 else 0
  }

  /** Whenever the CR's domain can be read, it is this one. */
  predicate DomainIs(e: Env, domain: string) {
    DomainOf(e.spec.dns, e.lookups).Some? ==> DomainOf(e.spec.dns, e.lookups).value == domain
  }

  lemma FollowsMakesOne(infra: string, m: Moment, a: Action, n: Moment, domain: string)
    requires Follows(infra, m, a, n) && Safe(m.e, infra, m.v) && !a.ZoneVanishes? && DomainIs(m.e, domain)
    requires domain != "" && domain[|domain| - 1] != '.'
    ensures a == Pass && n.v.nextZone != m.v.nextZone ==>
      NoZoneServes(m.v.zones, domain) && !NoZoneServes(n.v.zones, domain)
    ensures !NoZoneServes(m.v.zones, domain) ==> !NoZoneServes(n.v.zones, domain)
  {
    hide Safe, Admissible, FastPath, AllDone, Healthy, Calm, RecordUndisturbed, StateFollows, ParseHealthy,
         RulesHealthy, InputsFilled, InputsCurrent, EndpointUntouched, ServiceFollows, CondsFollow, DomainOf, TrimDots,
         Stuck;
    CreatedZoneServesIff(domain, NO_ID);
    SafeMeans(m.e, infra, m.v);
    if !NoZoneServes(m.v.zones, domain) {
      var i :| i in m.v.zones && Serves(m.v.zones[i], domain) && m.v.zones[i].private;
      assert i in n.v.zones && n.v.zones[i].name == m.v.zones[i].name && n.v.zones[i].private;
    }
    if a == Pass && n.v.nextZone != m.v.nextZone {
      assert m.v.nextZone in n.v.zones;
    }
  }

  /** At most one zone per CR: in every run in which nobody deletes zones or changes the domain, whatever fails, at most
      one zone is created for it, unless the domain is given with a trailing dot; with one, a zone whose id did not get
      recorded is created again (`CreatedAgainIff`). */
  lemma {:induction false} OneZoneMade(infra: string, run: seq<Moment>, schedule: seq<Action>, n: nat, domain: string)
    requires IsRun(infra, run, schedule) && n <= |schedule| && Safe(run[0].e, infra, run[0].v)
    requires domain != "" && domain[|domain| - 1] != '.'
    requires (forall m | m in run :: DomainIs(m.e, domain)) && forall a | a in schedule :: !a.ZoneVanishes?
    ensures ZonesMade(run, schedule, n) <= 1 && Safe(run[n].e, infra, run[n].v)
    ensures ZonesMade(run, schedule, n) == 1 ==> !NoZoneServes(run[n].v.zones, domain)
    decreases n
  {
    hide Safe, Follows, DomainIs, NoZoneServes;
    if n > 0 {
      OneZoneMade(infra, run, schedule, n - 1, domain);
      assert run[n - 1] in run && schedule[n - 1] in schedule;
      FollowsMakesOne(infra, run[n - 1], schedule[n - 1], run[n], domain);
      FollowsKeepsSafe(infra, run[n - 1], schedule[n - 1], run[n]);
    }
  }

  // ---- where runs start ----

  /** A new CR, to whose tags nothing belongs yet. */
  ghost predicate Untouched(e: Env, infra: string, v: View) {
    && InfraIs(e, v.kept, infra) && v.kept == NO_STATUS && v.cache == map[]
    && v.nextGroup != NO_ID && (forall i | i in v.groups :: i < v.nextGroup) && NO_ID !in v.groups
    && v.nextEndpoint != NO_ID && (forall i | i in v.endpoints :: i < v.nextEndpoint) && NO_ID !in v.endpoints
    && ZoneIds(v.zones, v.nextZone)
    && Groups.NoneOwned(v.groups, GroupTag(e, InfraStatus(infra)), e.cluster)
    && NoneOwned(v.endpoints, EndpointTag(e, InfraStatus(infra)), e.cluster)
  }

  /** Everything that holds between reconciles holds at the start. */
  lemma StartsWell(e: Env, infra: string, v: View)
    requires Untouched(e, infra, v)
    ensures Safe(e, infra, v) && Calm(e, v.kept, v)
    ensures !SettledState(e.catalog.firstState) && OneClusterZone(e.spec.dns, NO_ID, v.zones, e.lookups) ==>
      FastPath(e, v.kept.(infra := infra), v)
  {
    hide Naming.GenerateName, InfraOf, IsClusterZone;
  }

  /** A new CR in an account without resources of its own. */
  method Start(aws: AwsClient, name: string, spec: Spec, lookups: Lookups, k8sBudget: nat, enablePrivateDns: bool,
               ghost infra: string)
    returns (r: VpcEndpointReconciler)
    requires infra != "" && (InfraOf(spec.dns, lookups).Some? ==> InfraOf(spec.dns, lookups).value == infra)
    requires aws.groups == map[] && aws.endpoints == map[] && ZoneIds(aws.zones, aws.nextZone)
    ensures fresh(r) && fresh(r.k8s) && r.aws == aws && r.k8s.present && !r.k8s.stored.deleting
    ensures r.k8s.stored.name == name && r.k8s.stored.spec == spec && r.k8s.lookups == lookups
      && r.k8s.budget == k8sBudget
    ensures Untouched(CrEnv(r, infra), infra, r.ViewOf()) && Safe(CrEnv(r, infra), infra, r.ViewOf())
  {
    hide Safe, InfraOf, Naming.GenerateName;
    var k8s := new ApiServer(VpcEndpoint(name, spec, false, false), NO_STATUS, lookups, k8sBudget);
    r := new VpcEndpointReconciler(aws, k8s, enablePrivateDns);
    StartsWell(CrEnv(r, infra), infra, r.ViewOf());
  }
}
