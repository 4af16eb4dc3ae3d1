/** validateCustomDns: the private hosted zone, its record for the endpoint, its further VPCs and the
    ExternalName service. */
module DnsStage {
  import opened Aws
  import opened Kube
  import opened Reconciler
  import opened HostedZoneCache
  import Naming

  // ---- the domain name ----

  /** The domain name a CR asks for, as far as it can be read. */
  function DomainOf(dns: DnsSpec, l: Lookups): Option<string> {
    if dns.domainName != "" then Some(dns.domainName)
    else if dns.domainRef.None? then Some("")
    else
      var d := dns.domainRef.value;
      if d.name != "" then Some(d.name)
      else if d.dnsRef then l.dnsRefDomain
      else if d.hcpRef.Some? then (if d.hcpRef.value == HCP_NAMESPACE_PATH then l.hcpDomain else None)
      else Some("")
  }

  method ResolveDomain(k8s: ApiServer, dns: DnsSpec) returns (r: Result<string>)
    modifies k8s`budget
    ensures r.Ok? ==> k8s.budget == old(k8s.budget) && DomainOf(dns, k8s.lookups) == Some(r.value)
    ensures r.Err? ==>
      k8s.budget < old(k8s.budget) || (k8s.budget == old(k8s.budget) && DomainOf(dns, k8s.lookups).None?)
  {
    if dns.domainName != "" {
      return Ok(dns.domainName);
    }
    if dns.domainRef.Some? {
      var d := dns.domainRef.value;
      if d.name != "" {
        return Ok(d.name);
      } else if d.dnsRef {
        r := k8s.Read(k8s.lookups.dnsRefDomain);
        return;
      } else if d.hcpRef.Some? {
        if d.hcpRef.value != HCP_NAMESPACE_PATH {
          return Err(Unhealthy);
        }
        r := k8s.Read(k8s.lookups.hcpDomain);
        return;
      }
    }
    r := Ok("");
  }

  // ---- the zone ----

  predicate Serves(z: Zone, domain: string) {
    TrimDots(z.name) == domain
  }

  /** In other words, the zone has the domain's name, which AWS writes with a dot at its end. */
  lemma {:induction false} ServesIff(z: Zone, domain: string)
    requires z.name != "" && z.name[|z.name| - 1] == '.' && (|z.name| > 1 ==> z.name[|z.name| - 2] != '.')
    ensures Serves(z, domain) <==> z.name == domain + "."
  {
    var name := z.name[..|z.name| - 1];
    assert z.name == name + "." && TrimDots(z.name) == TrimDots(name) == name;
    if z.name == domain + "." {
      assert domain == (domain + ".")[..|domain|] == name;
    }
  }

  ghost predicate NoZoneServes(zones: map<Id, Zone>, domain: string) {
    forall i | i in zones :: !(Serves(zones[i], domain) && zones[i].private)
  }

  /** A zone that AWS stores for a domain is recognized again exactly when the domain, as given, does
      not end in a dot. */
  lemma {:induction false} CreatedZoneServesIff(domain: string, vpc: Id)
    requires domain != ""
    ensures Serves(NewZone(domain, vpc), domain) <==> domain[|domain| - 1] != '.'
  {
    if domain[|domain| - 1] == '.' {
      TrimShortens(domain);
    } else {
      assert TrimDots(domain + ".") == TrimDots((domain + ".")[..|domain|]);
      assert (domain + ".")[..|domain|] == domain;
    }
  }

  /** Whether the domain's zone, created but never recorded, is created again. */
  lemma CreatedAgainIff(domain: string, vpc: Id, zones: map<Id, Zone>, next: Id)
    requires domain != "" && next !in zones && NoZoneServes(zones, domain)
    ensures NoZoneServes(zones[next := NewZone(domain, vpc)], domain) <==> domain[|domain| - 1] == '.'
  {
    hide TrimDots;
    CreatedZoneServesIff(domain, vpc);
    var zones' := zones[next := NewZone(domain, vpc)];
    assert next in zones' && zones'[next].private;
    assert forall i | i in zones' && i != next :: i in zones && zones'[i] == zones[i];
  }

  lemma {:induction false} TrimShortens(s: string)
    ensures |TrimDots(s)| <= |s|
    ensures s != "" && s[|s| - 1] == '.' ==> |TrimDots(s)| < |s|
  {
    if s != "" && s[|s| - 1] == '.' {
      TrimShortens(s[..|s| - 1]);
    }
  }

  /** The listing loops: the first listed zone that serves the domain. */
  method FirstServing(aws: AwsClient, ids: seq<Id>, domain: string, onlyPrivate: bool) returns (found: Option<Id>)
    requires forall i | i in ids :: i in aws.zones
    ensures found.Some? ==>
      found.value in ids && Serves(aws.zones[found.value], domain) && (onlyPrivate ==> aws.zones[found.value].private)
    ensures found.None? ==>
      forall i | i in ids :: !(Serves(aws.zones[i], domain) && (onlyPrivate ==> aws.zones[i].private))
  {
    for i := 0 to |ids|
      invariant forall j | 0 <= j < i ::
        !(Serves(aws.zones[ids[j]], domain) && (onlyPrivate ==> aws.zones[ids[j]].private))
    {
      assert ids[i] in ids;
      if TrimDots(aws.zones[ids[i]].name) == domain && (!onlyPrivate || aws.zones[ids[i]].private) {
        return Some(ids[i]);
      }
    }
    found := None;
  }

  /** Records a zone id that has just been found and persists it. */
  method RecordZone(r: VpcEndpointReconciler, ref: ZoneRef) returns (res: Result<()>)
    requires r.Synced()
    modifies r`status, r.k8s`status, r.k8s`failedWrites, r.k8s`budget
    ensures Spent(old(r.k8s.budget), old(r.k8s.failedWrites), r.k8s.budget, r.k8s.failedWrites)
    ensures r.status == old(r.status).(zone := ref)
    ensures r.k8s.status == old(r.status) || r.k8s.status == r.status
    ensures res.Ok? ==> r.Synced() && r.k8s.budget == old(r.k8s.budget)
    ensures res.Err? ==> r.k8s.budget < old(r.k8s.budget)
  {
    r.status := r.status.(zone := ref);
    res := r.SaveStatus();
  }

  /** The zone for a domain: listed in the VPC, else listed by name, else created. */
  method FindOrCreateZone(r: VpcEndpointReconciler, domain: string) returns (res: Result<()>)
    requires r.Synced()
    modifies r`status, r.k8s`status, r.k8s`failedWrites, r.k8s`budget
    modifies r.aws`zones, r.aws`nextZone, r.aws`mutations, r.aws`creations, r.aws`budget
    ensures r.aws.budget <= old(r.aws.budget)
      && Spent(old(r.k8s.budget), old(r.k8s.failedWrites), r.k8s.budget, r.k8s.failedWrites)
    ensures r.status == old(r.status).(zone := r.status.zone)
    ensures r.k8s.status == old(r.status) || r.k8s.status == r.status
    ensures r.status.zone != old(r.status.zone) ==> r.status.zone.Bare?
    ensures res.Ok? ==>
      && r.Synced() && r.status.zone.Bare? && LiveZone(r.status.zone, r.aws.zones)
      && (r.aws.creations == old(r.aws.creations) ==> Serves(r.aws.zones[r.status.zone.n], domain))
    ensures res.Err? ==> r.aws.budget < old(r.aws.budget) || r.k8s.budget < old(r.k8s.budget)
    // a zone of the CR's VPC comes first, then any private one
    ensures res.Ok? && r.aws.creations == old(r.aws.creations) ==>
      if exists i | i in r.aws.zones :: r.status.vpc in r.aws.zones[i].vpcs && Serves(r.aws.zones[i], domain)
      then r.status.vpc in r.aws.zones[r.status.zone.n].vpcs else r.aws.zones[r.status.zone.n].private
    ensures (exists i | i in old(r.aws.zones) ::
               r.status.vpc in old(r.aws.zones)[i].vpcs && Serves(old(r.aws.zones)[i], domain)) ==>
      r.aws.creations == old(r.aws.creations)
    // a zone is created only when no private zone serves the domain
    ensures if r.aws.creations == old(r.aws.creations)
      then r.aws.zones == old(r.aws.zones) && r.aws.nextZone == old(r.aws.nextZone)
        && r.aws.mutations == old(r.aws.mutations)
      else
        && NoZoneServes(old(r.aws.zones), domain)
        && (|| (r.aws.zones == old(r.aws.zones) && r.aws.nextZone == old(r.aws.nextZone))
            || (r.aws.zones == old(r.aws.zones)[old(r.aws.nextZone) := NewZone(domain, r.status.vpc)]
                  && r.aws.nextZone == old(r.aws.nextZone) + 1))
        && (res.Ok? ==> r.status.zone == Bare(old(r.aws.nextZone)))
  {
    hide Serves, NewZone;
    var inVpc := r.aws.ListZonesByVpc(r.status.vpc);
    if inVpc.Err? {
      return Err(inVpc.error);
    }
    var found := FirstServing(r.aws, inVpc.value, domain, false);
    if found.Some? {
      if r.status.zone == Bare(found.value) {
        return Ok(());
      }
      res := RecordZone(r, Bare(found.value));
      return;
    }
    var byName := r.aws.ListZonesByName();
    if byName.Err? {
      return Err(byName.error);
    }
    found := FirstServing(r.aws, byName.value, domain, true);
    if found.Some? {
      res := RecordZone(r, Bare(found.value));
      return;
    }
    var created := r.aws.CreateZone(domain, r.status.vpc);
    if created.Err? {
      return Err(created.error);
    }
    res := RecordZone(r, Bare(created.value));
  }

  /** Zones stay, with what decides whom they serve. */
  ghost predicate ServersStay(zones: map<Id, Zone>, zones': map<Id, Zone>) {
    forall i | i in zones :: i in zones' && zones'[i].name == zones[i].name && zones'[i].private == zones[i].private
  }

  /** No zone was created, or one for this domain, which no private zone served. */
  ghost predicate MadeFor(domain: Option<string>, zones: map<Id, Zone>, next: Id, zones': map<Id, Zone>, next': Id) {
    next' == next ||
    (&& next' == next + 1 && domain.Some? && NoZoneServes(zones, domain.value)
     && next in zones' && zones'[next].name == Fqdn(domain.value) && zones'[next].private)
  }

  /** For which domain a zone is made: the one in .domainName, else the one referred to by name, else that of the DNS
      object or of the hosted control plane, which can be read. */
  lemma MadeForMeans(dns: DnsSpec, l: Lookups, zones: map<Id, Zone>, next: Id, zones': map<Id, Zone>, next': Id)
    requires MadeFor(DomainOf(dns, l), zones, next, zones', next') && next' != next
    requires dns.domainName != "" || dns.domainRef.Some?
    ensures next' == next + 1 && next in zones' && zones'[next].private
    ensures var d := if dns.domainRef.Some? then dns.domainRef.value else DomainRef("", false, None);
            var domain := if dns.domainName != "" then Some(dns.domainName)
                          else if d.name != "" then Some(d.name)
                          else if d.dnsRef then l.dnsRefDomain
                          else if d.hcpRef == Some(".metadata.namespace") then l.hcpDomain
                          else if d.hcpRef.Some? then None
                          else Some("");
            && domain.Some?
            && zones'[next].name == (if domain.value != "" && domain.value[|domain.value| - 1] == '.' then domain.value
                                     else domain.value + ".")
  {
  }

  lemma MadeStays(domain: Option<string>, zones: map<Id, Zone>, next: Id, zones': map<Id, Zone>, next': Id,
                  zones'': map<Id, Zone>)
    requires MadeFor(domain, zones, next, zones', next') && ServersStay(zones', zones'')
    ensures MadeFor(domain, zones, next, zones'', next')
    ensures ServersStay(zones, zones') ==> ServersStay(zones, zones'')
  {
    hide NoZoneServes;
  }

  /** What a reconcile makes of the zones there are. */
  ghost predicate ZoneHistory(e: Env, v: View, w: View) {
    && ServersStay(v.zones, w.zones)
    && MadeFor(DomainOf(e.spec.dns, e.lookups), v.zones, v.nextZone, w.zones, w.nextZone)
  }

  /** No tag the operator cares about is taken away. */
  predicate TagsGrew(t: Tags, t': Tags) {
    t.clusters <= t'.clusters && (t.operator ==> t'.operator) && (t.managed ==> t'.managed)
  }

  /** Zones may be added and tagged; nothing else about an existing zone changes. */
  ghost predicate ZonesKept(zones: map<Id, Zone>, zones': map<Id, Zone>) {
    forall i | i in zones ::
      i in zones' && zones'[i] == zones[i].(tags := zones'[i].tags) && TagsGrew(zones[i].tags, zones'[i].tags)
  }

  /** The recorded zone has the default tags. */
  predicate ZoneTagged(st: Status, zones: map<Id, Zone>, cluster: string) {
    LiveZone(st.zone, zones) && HasZoneTags(zones[st.zone.n].tags, cluster)
  }

  /** Whenever the tags condition says so. */
  predicate TagsTold(st: Status, zones: map<Id, Zone>, cluster: string) {
    st.tagsCond == CondTrue ==> ZoneTagged(st, zones, cluster)
  }

  lemma TagsStay(st: Status, zones: map<Id, Zone>, zones': map<Id, Zone>, cluster: string)
    requires ZonesKept(zones, zones') && TagsTold(st, zones, cluster)
    ensures TagsTold(st, zones', cluster)
  {
  }

  lemma TaggingIsElsewhere(cache: map<ZoneRef, CacheEntry>, unseen: set<(ZoneRef, Id)>, zones: map<Id, Zone>, next: Id,
                           zones': map<Id, Zone>, now: nat)
    requires Accounted(cache, unseen, zones, next, now) && ZonesKept(zones, zones') && zones'.Keys == zones.Keys
    ensures Accounted(cache, unseen, zones', next, now)
  {
    hide TagsGrew, Explained;
    assert forall i | i in zones' :: i in zones;
    AccountedElsewhere(cache, unseen, zones, next, zones', next, now);
  }

  /** findOrCreatePrivateHostedZone. */
  method FindOrCreatePrivateHostedZone(r: VpcEndpointReconciler) returns (res: Result<()>)
    requires r.Synced()
    modifies r`status, r`cache, r`unseen, r.k8s`status, r.k8s`failedWrites, r.k8s`budget
    modifies r.aws`zones, r.aws`nextZone, r.aws`mutations, r.aws`creations, r.aws`budget, r.aws`answers
    ensures r.aws.budget <= old(r.aws.budget)
      && Spent(old(r.k8s.budget), old(r.k8s.failedWrites), r.k8s.budget, r.k8s.failedWrites)
    ensures r.status == old(r.status).(zone := r.status.zone)
    ensures r.k8s.status == old(r.status) || r.k8s.status == r.status
    ensures old(r.status.zone) != NoZone ==> r.status == old(r.status) && r.aws.creations == old(r.aws.creations)
    ensures old(r.status.zone) == NoZone ==> r.cache == old(r.cache) && (r.status.zone == NoZone || r.status.zone.Bare?)
    ensures MadeFor(DomainOf(r.vpce.spec.dns, r.k8s.lookups), old(r.aws.zones), old(r.aws.nextZone), r.aws.zones,
      r.aws.nextZone)
    ensures ZoneIds(old(r.aws.zones), old(r.aws.nextZone)) ==>
      ZonesKept(old(r.aws.zones), r.aws.zones) && ZoneIds(r.aws.zones, r.aws.nextZone)
    ensures Accounted(old(r.cache), old(r.unseen), old(r.aws.zones), old(r.aws.nextZone), r.aws.now) ==>
      Accounted(r.cache, r.unseen, r.aws.zones, r.aws.nextZone, r.aws.now)
    ensures if r.aws.creations == old(r.aws.creations)
      then r.aws.zones == old(r.aws.zones) && r.aws.mutations == old(r.aws.mutations)
      else
        && DomainOf(r.vpce.spec.dns, r.k8s.lookups).Some?
        && NoZoneServes(old(r.aws.zones), DomainOf(r.vpce.spec.dns, r.k8s.lookups).value)
    ensures AgreementKept(old(r.cache), r.aws.zones, r.cache, r.aws.zones, r.aws.now)
    ensures Witnessed(old(r.cache), old(r.aws.answers)) ==> Witnessed(r.cache, r.aws.answers)
    ensures res.Ok? ==> r.Synced()
    ensures res.Ok? ==> r.status.zone == NoZone || r.status.zone.Bare?
    ensures res.Ok? && DomainOf(r.vpce.spec.dns, r.k8s.lookups) != Some("") ==> r.status.zone != NoZone
    ensures res.Ok? && r.status.zone != NoZone ==>
      LiveZone(r.status.zone, r.aws.zones)
        || (old(r.status.zone) != NoZone && Fresh(old(r.cache), r.status.zone, r.aws.now))
    ensures res.Err? && r.aws.budget == old(r.aws.budget) && r.k8s.budget == old(r.k8s.budget) ==>
      && r.status == old(r.status)
      && if old(r.status.zone) == NoZone then DomainOf(r.vpce.spec.dns, r.k8s.lookups).None?
         else !old(r.status.zone).Bare? || !LiveZone(r.status.zone, r.aws.zones)
  {
    if r.status.zone != NoZone {
      var resp := GetHostedZoneCached(r, r.status.zone);
      if resp.Err? {
        return Err(resp.error);
      }
      // AWS answers with the full spelling of the id
      res := if r.status.zone == Bare(resp.value.id) then Ok(()) else Err(Unhealthy);
      return;
    }
    var domain := ResolveDomain(r.k8s, r.vpce.spec.dns);
    if domain.Err? {
      return Err(domain.error);
    }
    if domain.value == "" {
      return Ok(());
    }
    res := FindOrCreateZone(r, domain.value);
    if Accounted(old(r.cache), old(r.unseen), old(r.aws.zones), old(r.aws.nextZone), r.aws.now) {
      AccountedElsewhere(r.cache, r.unseen, old(r.aws.zones), old(r.aws.nextZone), r.aws.zones, r.aws.nextZone,
        r.aws.now);
    }
  }

  /** One ChangeTags call for each default tag that is missing. */
  method AddMissingTags(aws: AwsClient, ref: ZoneRef, tags: Tags, cluster: string) returns (res: Result<()>)
    requires LiveZone(ref, aws.zones) && tags == aws.zones[ref.n].tags
    modifies aws`zones, aws`mutations, aws`budget
    ensures aws.budget <= old(aws.budget)
    ensures aws.zones == old(aws.zones)
      || aws.zones == old(aws.zones)[ref.n := WithZoneTags(old(aws.zones)[ref.n], cluster)]
    ensures res.Ok? ==> aws.budget == old(aws.budget) && HasZoneTags(aws.zones[ref.n].tags, cluster)
    ensures HasZoneTags(tags, cluster) ==> res.Ok? && aws.zones == old(aws.zones) && aws.mutations == old(aws.mutations)
    ensures res.Err? ==> aws.budget < old(aws.budget)
  {
    ghost var zones, zone, sent := aws.zones, aws.zones[ref.n], false;
    var missing := [!tags.operator, cluster !in tags.clusters, !tags.managed];
    for i := 0 to 3
      invariant aws.budget == old(aws.budget)
      invariant aws.zones == if sent then zones[ref.n := WithZoneTags(zone, cluster)] else zones
      invariant !sent ==> aws.mutations == old(aws.mutations) && forall j | 0 <= j < i :: !missing[j]
      invariant sent ==> missing[0] || missing[1] || missing[2]
    {
      if missing[i] {
        res := aws.TagZone(ref, cluster);
        if res.Err? {
          return;
        }
        sent := true;
      }
    }
    assert !sent ==> !missing[0] && !missing[1] && !missing[2];
    res := Ok(());
  }

  /** createMissingPrivateZoneTags. */
  method CreateMissingPrivateZoneTags(r: VpcEndpointReconciler) returns (res: Result<()>)
    requires r.Synced()
    modifies r`status, r.k8s`status, r.k8s`failedWrites, r.k8s`budget, r.aws`zones, r.aws`mutations, r.aws`budget
    ensures r.aws.budget <= old(r.aws.budget)
      && Spent(old(r.k8s.budget), old(r.k8s.failedWrites), r.k8s.budget, r.k8s.failedWrites)
    ensures r.status == old(r.status).(tagsCond := r.status.tagsCond)
    ensures r.k8s.status == old(r.status) || r.k8s.status == old(r.status).(tagsCond := CondTrue)
    ensures ZonesKept(old(r.aws.zones), r.aws.zones) && r.aws.zones.Keys == old(r.aws.zones).Keys
    ensures res.Ok? ==> r.Synced() && r.status.tagsCond == CondTrue && ZoneTagged(r.status, r.aws.zones, r.clusterTag)
    // the condition is written only when it is true
    ensures old(r.status.tagsCond) != CondTrue
            && (r.status.tagsCond == CondTrue || r.k8s.status.tagsCond == CondTrue) ==>
      ZoneTagged(r.status, r.aws.zones, r.clusterTag)
    ensures LiveZone(r.status.zone, old(r.aws.zones))
            && HasZoneTags(old(r.aws.zones)[r.status.zone.n].tags, r.clusterTag) ==>
      r.aws.mutations == old(r.aws.mutations)
    ensures res.Err? ==>
      r.aws.budget < old(r.aws.budget) || r.k8s.budget < old(r.k8s.budget) || !LiveZone(r.status.zone, r.aws.zones)
        || r.clusterTag == ""
  {
    hide HasZoneTags;
    var tags := r.aws.ZoneTags(r.status.zone);
    if tags.Err? {
      return Err(tags.error);
    }
    if r.clusterTag == "" {
      return Err(Unhealthy);
    }
    res := AddMissingTags(r.aws, r.status.zone, tags.value, r.clusterTag);
    if res.Ok? {
      r.status := r.status.(tagsCond := CondTrue);
      res := r.SaveStatus();
    }
  }

  predicate IsClusterZone(z: Zone, base: string, vpc: Id) {
    z.name == base + "." && vpc in z.vpcs
  }

  /** GetDefaultPrivateHostedZoneId: the first zone of the VPC named after the cluster's base domain. */
  method GetDefaultPrivateHostedZoneId(aws: AwsClient, base: string, vpc: Id) returns (res: Result<Id>)
    modifies aws`budget
    ensures res.Ok? ==>
      aws.budget == old(aws.budget) && res.value in aws.zones && IsClusterZone(aws.zones[res.value], base, vpc)
    ensures res.Err? ==>
      aws.budget < old(aws.budget)
        || (aws.budget == old(aws.budget) && forall i | i in aws.zones :: !IsClusterZone(aws.zones[i], base, vpc))
  {
    var listed := aws.ListZonesByVpc(vpc);
    if listed.Err? {
      return Err(listed.error);
    }
    var ids := listed.value;
    for i := 0 to |ids|
      invariant forall j | 0 <= j < i :: aws.zones[ids[j]].name != base + "."
    {
      assert ids[i] in ids;
      if aws.zones[ids[i]].name == base + "." {
        return Ok(ids[i]);
      }
    }
    res := Err(Unhealthy);
  }

  /** The zone the CR's DNS mode settles on: the modes are tried in this order. */
  datatype Mode = AutoDiscover | ById | ByDomain | NoDns

  function ModeOf(dns: DnsSpec): Mode {
    if dns.autoDiscover then AutoDiscover
    else if dns.zone != NO_ID then ById
    else if NamesDomain(dns) then ByDomain
    else NoDns
  }

  /** The spelling the CR's mode uses for its zone; without a mode, that of a zone left from an earlier spec. */
  predicate BareMode(dns: DnsSpec, zone: ZoneRef) {
    if ModeOf(dns) == NoDns then !zone.Prefixed? else ModeOf(dns) != ById
  }

  /** Zone i is the one zone that AutoDiscover can find. */
  predicate OnlyClusterZone(i: Id, zones: map<Id, Zone>, base: string, vpc: Id) {
    && i in zones && IsClusterZone(zones[i], base, vpc)
    && forall j | j in zones && IsClusterZone(zones[j], base, vpc) :: j == i
  }

  /** The zone stage has nothing left to do. */
  predicate ZoneDone(dns: DnsSpec, st: Status, zones: map<Id, Zone>, l: Lookups) {
    match ModeOf(dns)
    case AutoDiscover => st.zone.Bare? && l.baseDomain.Some?
      && OnlyClusterZone(st.zone.n, zones, l.baseDomain.value, st.vpc)
    case ById => st.zone == Prefixed(dns.zone) && LiveZone(st.zone, zones)
    case ByDomain => st.zone.Bare? && LiveZone(st.zone, zones) && st.tagsCond == CondTrue
    case NoDns => LiveZone(st.zone, zones)
  }

  /** The recorded zone cannot be used and is never replaced: in domain mode it is gone, or spelled as the Id mode
      spells it; without a mode there is none, or it is gone. */
  predicate ZoneStuck(dns: DnsSpec, zone: ZoneRef, zones: map<Id, Zone>) {
    match ModeOf(dns)
    case ByDomain => zone != NoZone && !(zone.Bare? && LiveZone(zone, zones))
    case NoDns => !LiveZone(zone, zones)
    case _ => false
  }

  /** Without a mode no record was written. */
  predicate NoNewRecord(dns: DnsSpec, st: Status, st': Status) {
    ModeOf(dns) == NoDns && st.recordCond != CondTrue ==> st'.recordCond != CondTrue
  }

  /** A recorded zone exists; without one, the domain can be read. */
  predicate DomainZoneHealthy(dns: DnsSpec, zone: ZoneRef, zones: map<Id, Zone>, l: Lookups) {
    if zone == NoZone then DomainOf(dns, l).Some? && DomainOf(dns, l).value != ""
      else zone.Bare? && LiveZone(zone, zones)
  }

  /** What the zone stage needs of its surroundings. */
  predicate ZoneHealthy(dns: DnsSpec, st: Status, zones: map<Id, Zone>, l: Lookups) {
    match ModeOf(dns)
    case AutoDiscover => l.baseDomain.Some? && exists i | i in zones ::
      OnlyClusterZone(i, zones, l.baseDomain.value, st.vpc)
    case ById => dns.zone in zones
    case ByDomain => DomainZoneHealthy(dns, st.zone, zones, l)
    case NoDns => LiveZone(st.zone, zones)
  }

  /** What of this is not the recorded zone's own state. */
  predicate ZoneOffered(dns: DnsSpec, st: Status, zones: map<Id, Zone>, l: Lookups) {
    match ModeOf(dns)
    case AutoDiscover => l.baseDomain.Some? && exists i | i in zones ::
      OnlyClusterZone(i, zones, l.baseDomain.value, st.vpc)
    case ById => dns.zone in zones
    case ByDomain => st.zone == NoZone ==> DomainOf(dns, l).Some? && DomainOf(dns, l).value != ""
    case NoDns => true
  }

  lemma ZoneHealthyIff(dns: DnsSpec, st: Status, zones: map<Id, Zone>, l: Lookups)
    ensures ZoneHealthy(dns, st, zones, l) <==> ZoneOffered(dns, st, zones, l) && !ZoneStuck(dns, st.zone, zones)
  {
  }

  lemma StuckIsNotDone(dns: DnsSpec, st: Status, zones: map<Id, Zone>, l: Lookups)
    requires ZoneStuck(dns, st.zone, zones)
    ensures !ZoneDone(dns, st, zones, l)
  {
  }

  /** For a CR whose mode and surroundings are fixed: the recorded zone is the one the mode settles on. */
  ghost predicate ZonePinned(dns: DnsSpec, st: Status, zones: map<Id, Zone>, l: Lookups) {
    && (ModeOf(dns) == AutoDiscover ==> l.baseDomain.Some? ==>
          forall i | i in zones && IsClusterZone(zones[i], l.baseDomain.value, st.vpc) :: st.zone == Bare(i))
    && (ModeOf(dns) == ById ==> st.zone == Prefixed(dns.zone))
  }

  /** Discovery is unambiguous: the CR's VPC, or while none is recorded any VPC, is in at most one zone of the cluster's
      name. */
  ghost predicate OneClusterZone(dns: DnsSpec, vpc: Id, zones: map<Id, Zone>, l: Lookups) {
    ModeOf(dns) == AutoDiscover && l.baseDomain.Some? ==>
      forall i, j, x | i in zones && j in zones && (vpc == NO_ID || x == vpc)
        && IsClusterZone(zones[i], l.baseDomain.value, x) && IsClusterZone(zones[j], l.baseDomain.value, x) :: i == j
  }

  /** Moreover a True record condition belongs to the zone the mode settles on. */
  ghost predicate ChoiceHolds(dns: DnsSpec, st: Status, zones: map<Id, Zone>, l: Lookups) {
    OneClusterZone(dns, st.vpc, zones, l) && (st.recordCond == CondTrue ==> ZonePinned(dns, st, zones, l))
  }

  predicate AtClusterZone(st: Status, zones: map<Id, Zone>, l: Lookups) {
    && st.zone.Bare? && l.baseDomain.Some? && st.zone.n in zones
    && IsClusterZone(zones[st.zone.n], l.baseDomain.value, st.vpc)
  }

  /** The recorded zone is one the mode can settle on. */
  predicate ZoneChosen(dns: DnsSpec, st: Status, zones: map<Id, Zone>, l: Lookups) {
    && (ModeOf(dns) == AutoDiscover ==> AtClusterZone(st, zones, l))
    && (ModeOf(dns) == ById ==> st.zone == Prefixed(dns.zone))
  }

  /** Where discovery is unambiguous, a chosen zone is the one the mode settles on. */
  lemma ChosenIsPinned(dns: DnsSpec, st: Status, zones: map<Id, Zone>, l: Lookups)
    requires ZoneChosen(dns, st, zones, l) && OneClusterZone(dns, st.vpc, zones, l)
    ensures ZonePinned(dns, st, zones, l)
  {
  }

  lemma KeptAgreement(cache: map<ZoneRef, CacheEntry>, zones: map<Id, Zone>, zones': map<Id, Zone>, now: nat)
    requires ZonesKept(zones, zones')
    ensures forall k | AgreesAt(cache, k, zones, now) :: AgreesAt(cache, k, zones', now)
  {
  }

  lemma KeptServers(zones: map<Id, Zone>, zones': map<Id, Zone>)
    requires ZonesKept(zones, zones')
    ensures ServersStay(zones, zones')
  {
  }

  lemma KeptTwice(zones: map<Id, Zone>, zones': map<Id, Zone>, zones'': map<Id, Zone>)
    requires ZonesKept(zones, zones') && ZonesKept(zones', zones'')
    ensures ZonesKept(zones, zones'')
  {
  }

  /** The tags, unless the condition says that they are there. */
  method EnsureZoneTagged(r: VpcEndpointReconciler) returns (res: Result<()>)
    requires r.Synced()
    modifies r`status, r.k8s`status, r.k8s`failedWrites, r.k8s`budget, r.aws`zones, r.aws`mutations, r.aws`budget
    ensures r.aws.budget <= old(r.aws.budget)
      && Spent(old(r.k8s.budget), old(r.k8s.failedWrites), r.k8s.budget, r.k8s.failedWrites)
    ensures r.status == old(r.status).(tagsCond := r.status.tagsCond)
    ensures r.k8s.status == old(r.status) || r.k8s.status == old(r.status).(tagsCond := CondTrue)
    ensures ZonesKept(old(r.aws.zones), r.aws.zones) && ServersStay(old(r.aws.zones), r.aws.zones)
    ensures r.aws.zones.Keys == old(r.aws.zones).Keys
    ensures forall k | AgreesAt(r.cache, k, old(r.aws.zones), r.aws.now) :: AgreesAt(r.cache, k, r.aws.zones, r.aws.now)
    ensures Accounted(r.cache, r.unseen, old(r.aws.zones), r.aws.nextZone, r.aws.now) ==>
      Accounted(r.cache, r.unseen, r.aws.zones, r.aws.nextZone, r.aws.now)
    ensures TagsTold(old(r.status), old(r.aws.zones), r.clusterTag) ==>
      TagsTold(r.status, r.aws.zones, r.clusterTag) && TagsTold(r.k8s.status, r.aws.zones, r.clusterTag)
    ensures res.Ok? ==> r.Synced() && r.status.tagsCond == CondTrue
    ensures old(r.status.tagsCond) == CondTrue ==>
      res.Ok? && r.status == r.k8s.status == old(r.status) && r.aws.zones == old(r.aws.zones)
        && r.aws.mutations == old(r.aws.mutations)
    ensures res.Err? ==>
      r.aws.budget < old(r.aws.budget) || r.k8s.budget < old(r.k8s.budget) || !LiveZone(r.status.zone, r.aws.zones)
        || r.clusterTag == ""
  {
    hide AgreesAt, ZonesKept, ServersStay, Accounted, HasZoneTags;
    ghost var zones := r.aws.zones;
    res := Ok(());
    if r.status.tagsCond != CondTrue {
      res := CreateMissingPrivateZoneTags(r);
      if Accounted(r.cache, r.unseen, zones, r.aws.nextZone, r.aws.now) {
        TaggingIsElsewhere(r.cache, r.unseen, zones, r.aws.nextZone, r.aws.zones, r.aws.now);
      }
    } else {
      AllKept(zones);
    }
    KeptAgreement(r.cache, zones, r.aws.zones, r.aws.now);
    KeptServers(zones, r.aws.zones);
  }

  lemma AllKept(zones: map<Id, Zone>)
    ensures ZonesKept(zones, zones)
  {
  }

  /** The zone of a domain and, unless the condition says that they are there, its tags. */
  method ValidateDomainZone(r: VpcEndpointReconciler) returns (res: Result<()>)
    requires r.Synced()
    modifies r`status, r`cache, r`unseen, r.k8s`status, r.k8s`failedWrites, r.k8s`budget
    modifies r.aws`zones, r.aws`nextZone, r.aws`mutations, r.aws`creations, r.aws`budget, r.aws`answers
    ensures r.aws.budget <= old(r.aws.budget)
      && Spent(old(r.k8s.budget), old(r.k8s.failedWrites), r.k8s.budget, r.k8s.failedWrites)
    ensures r.status == old(r.status).(zone := r.status.zone, tagsCond := r.status.tagsCond)
    ensures r.k8s.status == old(r.status).(zone := r.k8s.status.zone, tagsCond := r.k8s.status.tagsCond)
    ensures r.k8s.status.zone == old(r.status.zone) || r.k8s.status.zone == r.status.zone
    ensures if old(r.status.zone) != NoZone then r.status.zone == old(r.status.zone)
      else r.status.zone == NoZone || r.status.zone.Bare?
    ensures old(r.status.zone) != NoZone ==> r.aws.zones.Keys == old(r.aws.zones).Keys
    ensures MadeFor(DomainOf(r.vpce.spec.dns, r.k8s.lookups), old(r.aws.zones), old(r.aws.nextZone), r.aws.zones,
      r.aws.nextZone)
    ensures ZoneIds(old(r.aws.zones), old(r.aws.nextZone)) ==>
      ZonesKept(old(r.aws.zones), r.aws.zones) && ZoneIds(r.aws.zones, r.aws.nextZone)
    ensures r.aws.creations != old(r.aws.creations) ==>
      && old(r.status.zone) == NoZone
      && DomainOf(r.vpce.spec.dns, r.k8s.lookups).Some?
      && NoZoneServes(old(r.aws.zones), DomainOf(r.vpce.spec.dns, r.k8s.lookups).value)
    ensures old(r.status.zone) != NoZone && old(r.status.tagsCond) == CondTrue ==>
      r.status == r.k8s.status == old(r.status) && r.aws.zones == old(r.aws.zones)
        && r.aws.mutations == old(r.aws.mutations)
    ensures ZoneIds(old(r.aws.zones), old(r.aws.nextZone)) ==>
      AgreementKept(old(r.cache), old(r.aws.zones), r.cache, r.aws.zones, r.aws.now)
    ensures Accounted(old(r.cache), old(r.unseen), old(r.aws.zones), old(r.aws.nextZone), r.aws.now) ==>
      Accounted(r.cache, r.unseen, r.aws.zones, r.aws.nextZone, r.aws.now)
    ensures ZoneIds(old(r.aws.zones), old(r.aws.nextZone))
            && TagsTold(old(r.status), old(r.aws.zones), r.clusterTag) ==>
      TagsTold(r.status, r.aws.zones, r.clusterTag) && TagsTold(r.k8s.status, r.aws.zones, r.clusterTag)
    ensures Witnessed(old(r.cache), old(r.aws.answers)) ==> Witnessed(r.cache, r.aws.answers)
    ensures res.Ok? ==> r.Synced() && r.status.tagsCond == CondTrue
    ensures res.Ok? ==> r.status.zone == NoZone || r.status.zone.Bare?
    ensures res.Ok? && r.status.zone != NoZone ==>
      LiveZone(r.status.zone, r.aws.zones) || Fresh(old(r.cache), r.status.zone, r.aws.now)
    ensures DomainZoneHealthy(r.vpce.spec.dns, old(r.status.zone), old(r.aws.zones), r.k8s.lookups) ==>
      || (res.Ok? && r.status.zone != NoZone)
      || r.aws.budget < old(r.aws.budget) || r.k8s.budget < old(r.k8s.budget) || r.clusterTag == ""
  {
    hide NoZoneServes, AgreesAt, ZonesKept, Accounted, HasZoneTags, Witnessed, DomainOf, Fresh, MadeFor, ServersStay,
         Naming.GetClusterLegacyTagKey;
    ghost var cache, zones, ids, st := r.cache, r.aws.zones, ZoneIds(r.aws.zones, r.aws.nextZone), r.status;
    res := FindOrCreatePrivateHostedZone(r);
    ghost var cache', zones' := r.cache, r.aws.zones;
    if ids {
      KeptAgreement(cache, zones, zones', r.aws.now);
      if TagsTold(st, zones, r.clusterTag) {
        TagsStay(st, zones, zones', r.clusterTag);
      }
    }
    if res.Err? {
      return;
    }
    res := EnsureZoneTagged(r);
    MadeStays(DomainOf(r.vpce.spec.dns, r.k8s.lookups), zones, old(r.aws.nextZone), zones', r.aws.nextZone,
      r.aws.zones);
    if ids {
      KeptTwice(zones, zones', r.aws.zones);
    }
  }

  /** A zone is created only in domain mode and when no private zone serves the domain. */
  ghost predicate MayCreateZone(dns: DnsSpec, l: Lookups, zones: map<Id, Zone>) {
    ModeOf(dns) == ByDomain && DomainOf(dns, l).Some? && NoZoneServes(zones, DomainOf(dns, l).value)
  }

  /** Only a CR that names a domain has its zone tagged. */
  predicate TagsTrue(dns: DnsSpec, cluster: string, st: Status, zones: map<Id, Zone>) {
    TagsTold(st, zones, cluster) && (st.tagsCond == CondTrue ==> ModeOf(dns) == ByDomain)
  }

  /** What the zone validation promises. */
  ghost predicate ZoneRel(e: Env, v: View, w: View, ok: bool) {
    var dns, l, st := e.spec.dns, e.lookups, v.status;
    && Spends(v, w)
    && w.service == v.service && w.serviceWrites == v.serviceWrites && w.endpoints == v.endpoints
    && w.status == st.(zone := w.status.zone, tagsCond := w.status.tagsCond)
    && w.kept == st.(zone := w.kept.zone, tagsCond := w.kept.tagsCond)
    && (w.kept.zone == st.zone || w.kept.zone == w.status.zone)
    && (ok ==> w.kept == w.status) && NoZone !in w.cache
    // a recorded zone is never forgotten, and in domain mode never replaced
    && (st.zone != NoZone ==> w.status.zone != NoZone)
    && (st.zone != NoZone && (ModeOf(dns) == ByDomain || ZonePinned(dns, st, v.zones, l)) ==> w.status.zone == st.zone)
    && (Spelled(st.zone, BareMode(dns, st.zone)) ==>
          Spelled(w.status.zone, BareMode(dns, w.status.zone)) && Spelled(w.kept.zone, BareMode(dns, w.kept.zone)))
    && (ok ==> Spelled(w.status.zone, BareMode(dns, w.status.zone)))
    // one that cannot be used stays as it is, and in domain mode the validation fails
    && (ZoneStuck(dns, st.zone, v.zones) ==> w.status.zone == w.kept.zone == st.zone && w.zones.Keys == v.zones.Keys)
    && (ok && ModeOf(dns) == ByDomain && FreshLive(v.cache, v.zones, e.now) ==> !ZoneStuck(dns, st.zone, v.zones))
    && v.nextZone <= w.nextZone && (ZoneIds(v.zones, v.nextZone) ==> ZoneHistory(e, v, w))
    && (ZoneIds(v.zones, v.nextZone) ==>
          && ZonesKept(v.zones, w.zones) && ZoneIds(w.zones, w.nextZone)
          && AgreementKept(v.cache, v.zones, w.cache, w.zones, e.now))
    && (Witnessed(v.cache, v.answers) ==> Witnessed(w.cache, w.answers)) && (CacheKnown(e, v) ==> CacheKnown(e, w))
    && w.lost == v.lost
    && (ZoneIds(v.zones, v.nextZone) && TagsTrue(dns, e.cluster, st, v.zones) ==>
          TagsTrue(dns, e.cluster, w.kept, w.zones) && TagsTrue(dns, e.cluster, w.status, w.zones))
    // a zone is created only for a CR that has none
    && (w.creations != v.creations ==> st.zone == NoZone && MayCreateZone(dns, l, v.zones))
    && (ModeOf(dns) != ByDomain ==> w.zones == v.zones && w.mutations == v.mutations && w.kept.tagsCond == st.tagsCond)
    && (ModeOf(dns) == NoDns ==> ok && w.status == st)
    && (ok ==> ZoneChosen(dns, w.status, w.zones, l))
    && (ZoneDone(dns, st, v.zones, l) ==> w.status == w.kept == st && w.zones == v.zones && w.mutations == v.mutations)
    // without faults, the stage finishes in healthy surroundings
    && (FreshLive(v.cache, v.zones, e.now) && ZoneIds(v.zones, v.nextZone) && NoFaults(v, w) && e.cluster != ""
          && ZoneHealthy(dns, st, v.zones, l) ==>
          ok && ZoneDone(dns, w.status, w.zones, l))
  }

  predicate NoClusterZone(vpc: Id, zones: map<Id, Zone>, l: Lookups) {
    l.baseDomain.Some? ==> forall i | i in zones :: !IsClusterZone(zones[i], l.baseDomain.value, vpc)
  }

  /** The AutoDiscover branch: the cluster's own zone. */
  method UseClusterZone(r: VpcEndpointReconciler) returns (res: Result<()>)
    requires r.Synced()
    modifies r`status, r.k8s`status, r.k8s`failedWrites, r.k8s`budget, r.aws`budget
    ensures r.aws.budget <= old(r.aws.budget)
      && Spent(old(r.k8s.budget), old(r.k8s.failedWrites), r.k8s.budget, r.k8s.failedWrites)
    ensures r.status == old(r.status).(zone := r.status.zone)
    ensures r.k8s.status == old(r.status) || r.k8s.status == r.status
    ensures res.Ok? ==> r.Synced()
    ensures r.status.zone == old(r.status.zone) || AtClusterZone(r.status, r.aws.zones, r.k8s.lookups)
    ensures res.Ok? ==> AtClusterZone(r.status, r.aws.zones, r.k8s.lookups)
    ensures res.Err? ==>
      || r.aws.budget < old(r.aws.budget) || r.k8s.budget < old(r.k8s.budget)
      || NoClusterZone(r.status.vpc, r.aws.zones, r.k8s.lookups)
  {
    hide IsClusterZone;
    var base := r.k8s.Read(r.k8s.lookups.baseDomain);
    if base.Err? {
      return Err(base.error);
    }
    var found := GetDefaultPrivateHostedZoneId(r.aws, base.value, r.status.vpc);
    if found.Err? {
      return Err(found.error);
    }
    if r.status.zone != Bare(found.value) {
      res := RecordZone(r, Bare(found.value));
    } else {
      res := Ok(());
    }
  }

  /** The Id branch: the zone the spec names. */
  method UseZoneById(r: VpcEndpointReconciler) returns (res: Result<()>)
    requires r.Synced()
    modifies r`status, r`cache, r`unseen, r.k8s`status, r.k8s`failedWrites, r.k8s`budget, r.aws`budget, r.aws`answers
    ensures r.aws.budget <= old(r.aws.budget)
      && Spent(old(r.k8s.budget), old(r.k8s.failedWrites), r.k8s.budget, r.k8s.failedWrites)
    ensures r.status == old(r.status) || r.status == old(r.status).(zone := Prefixed(r.vpce.spec.dns.zone))
    ensures r.k8s.status == old(r.status) || r.k8s.status == r.status
    ensures res.Ok? ==> r.Synced() && r.status.zone == Prefixed(r.vpce.spec.dns.zone)
    ensures res.Ok? ==>
      LiveZone(r.status.zone, r.aws.zones) || Fresh(old(r.cache), Bare(r.vpce.spec.dns.zone), r.aws.now)
    ensures res.Err? ==>
      r.aws.budget < old(r.aws.budget) || r.k8s.budget < old(r.k8s.budget) || r.vpce.spec.dns.zone !in r.aws.zones
    ensures AgreementKept(old(r.cache), r.aws.zones, r.cache, r.aws.zones, r.aws.now)
    ensures Witnessed(old(r.cache), old(r.aws.answers)) ==> Witnessed(r.cache, r.aws.answers)
    ensures Accounted(old(r.cache), old(r.unseen), r.aws.zones, r.aws.nextZone, r.aws.now) ==>
      Accounted(r.cache, r.unseen, r.aws.zones, r.aws.nextZone, r.aws.now)
  {
    hide AgreementKept, Witnessed, Accounted;
    var resp := GetHostedZoneCached(r, Bare(r.vpce.spec.dns.zone));
    if resp.Err? {
      return Err(resp.error);
    }
    if r.status.zone != Prefixed(resp.value.id) {
      res := RecordZone(r, Prefixed(resp.value.id));
    } else {
      res := Ok(());
    }
  }

  /** Finding the cluster's zone settles on it, unless there are several. */
  lemma ClusterZoneUsed(e: Env, v: View, w: View, ok: bool)
    requires ModeOf(e.spec.dns) == AutoDiscover && NoZone !in v.cache
    requires w == v.(status := v.status.(zone := w.status.zone), kept := w.kept, awsBudget := w.awsBudget,
                     failedWrites := w.failedWrites, k8sBudget := w.k8sBudget)
    requires Spends(v, w)
    requires (w.kept == v.status || w.kept == w.status) && (ok ==> w.kept == w.status)
    requires w.status == v.status || AtClusterZone(w.status, w.zones, e.lookups)
    requires ok ==> AtClusterZone(w.status, w.zones, e.lookups)
    requires ok || !NoFaults(v, w) || NoClusterZone(w.status.vpc, w.zones, e.lookups)
    ensures ZoneRel(e, v, w, ok)
  {
    hide IsClusterZone;
    AgreementSelf(v.cache, v.zones, e.now);
  }

  /** So does using the zone that the spec names. */
  lemma ZoneByIdUsed(e: Env, v: View, w: View, ok: bool)
    requires ModeOf(e.spec.dns) == ById && NoZone !in w.cache
    requires w == v.(status := v.status.(zone := w.status.zone), kept := w.kept, cache := w.cache, unseen := w.unseen,
                     answers := w.answers,
                     awsBudget := w.awsBudget, failedWrites := w.failedWrites, k8sBudget := w.k8sBudget)
    requires Spends(v, w)
    requires (w.kept == v.status || w.kept == w.status) && (ok ==> w.kept == w.status)
    requires w.status == v.status || w.status.zone == Prefixed(e.spec.dns.zone)
    requires ok ==> w.status.zone == Prefixed(e.spec.dns.zone)
    requires ok ==> LiveZone(w.status.zone, w.zones) || Fresh(v.cache, Bare(e.spec.dns.zone), e.now)
    requires ok || !NoFaults(v, w) || e.spec.dns.zone !in w.zones
    requires AgreementKept(v.cache, v.zones, w.cache, w.zones, e.now)
    requires Witnessed(v.cache, v.answers) ==> Witnessed(w.cache, w.answers)
    requires CacheKnown(e, v) ==> CacheKnown(e, w)
    ensures ZoneRel(e, v, w, ok)
  {
    hide AgreementKept, Witnessed, IsClusterZone, CacheKnown;
  }

  /** So does finding or creating the zone of a domain. */
  lemma DomainZoneUsed(e: Env, v: View, w: View, ok: bool)
    requires ModeOf(e.spec.dns) == ByDomain && NoZone !in w.cache
    requires Spends(v, w)
    requires w.service == v.service && w.serviceWrites == v.serviceWrites && w.endpoints == v.endpoints
      && w.lost == v.lost
    requires w.status == v.status.(zone := w.status.zone, tagsCond := w.status.tagsCond)
    requires w.kept == v.status.(zone := w.kept.zone, tagsCond := w.kept.tagsCond)
    requires w.kept.zone == v.status.zone || w.kept.zone == w.status.zone
    requires ok ==> w.kept == w.status && w.status.tagsCond == CondTrue
    requires if v.status.zone != NoZone then w.status.zone == v.status.zone
      else w.status.zone == NoZone || w.status.zone.Bare?
    requires v.status.zone != NoZone ==> w.zones.Keys == v.zones.Keys
    requires MadeFor(DomainOf(e.spec.dns, e.lookups), v.zones, v.nextZone, w.zones, w.nextZone)
    requires ok ==> w.status.zone == NoZone || w.status.zone.Bare?
    requires ok && w.status.zone != NoZone ==> LiveZone(w.status.zone, w.zones) || Fresh(v.cache, w.status.zone, e.now)
    requires ZoneIds(v.zones, v.nextZone) ==>
      ZonesKept(v.zones, w.zones) && ZoneIds(w.zones, w.nextZone)
        && AgreementKept(v.cache, v.zones, w.cache, w.zones, e.now)
    requires Witnessed(v.cache, v.answers) ==> Witnessed(w.cache, w.answers)
    requires CacheKnown(e, v) ==> CacheKnown(e, w)
    requires ZoneIds(v.zones, v.nextZone) && TagsTold(v.status, v.zones, e.cluster) ==>
      TagsTold(w.kept, w.zones, e.cluster) && TagsTold(w.status, w.zones, e.cluster)
    requires w.creations != v.creations ==> v.status.zone == NoZone && MayCreateZone(e.spec.dns, e.lookups, v.zones)
    requires v.status.zone != NoZone && v.status.tagsCond == CondTrue ==>
      w.status == w.kept == v.status && w.zones == v.zones && w.mutations == v.mutations
    requires NoFaults(v, w) && e.cluster != "" && DomainZoneHealthy(e.spec.dns, v.status.zone, v.zones, e.lookups) ==>
      ok && w.status.zone != NoZone
    ensures ZoneRel(e, v, w, ok)
  {
    hide AgreementKept, Witnessed, IsClusterZone, ZoneIds, MayCreateZone, CacheKnown, TagsTold;
  }

  /** Without a DNS mode nothing happens. */
  lemma NoZoneUsed(e: Env, v: View)
    requires ModeOf(e.spec.dns) == NoDns && NoZone !in v.cache && v.kept == v.status
    ensures ZoneRel(e, v, v, true)
  {
    hide IsClusterZone;
    AgreementSelf(v.cache, v.zones, e.now);
  }

  /** The DomainName and DomainNameRef branch. */
  method UseDomainZone(r: VpcEndpointReconciler) returns (res: Result<()>)
    requires r.Synced() && ModeOf(r.vpce.spec.dns) == ByDomain
    modifies r`status, r`cache, r`unseen, r.k8s`status, r.k8s`failedWrites, r.k8s`budget
    modifies r.aws`zones, r.aws`nextZone, r.aws`mutations, r.aws`creations, r.aws`budget, r.aws`answers
    ensures ZoneRel(r.EnvOf(), old(r.ViewOf()), r.ViewOf(), res.Ok?)
    ensures res.Ok? ==> r.Synced()
  {
    hide ZoneRel, NoZoneServes, AgreementKept, ZoneIds, ZonesKept, Witnessed, Fresh, Accounted, TagsTold, LiveZone,
         DomainZoneHealthy, DomainOf;
    ghost var e, v := r.EnvOf(), r.ViewOf();
    res := ValidateDomainZone(r);
    DomainZoneUsed(e, v, r.ViewOf(), res.Ok?);
  }

  method UseDiscoveredZone(r: VpcEndpointReconciler) returns (res: Result<()>)
    requires r.Synced() && ModeOf(r.vpce.spec.dns) == AutoDiscover
    modifies r`status, r.k8s`status, r.k8s`failedWrites, r.k8s`budget, r.aws`budget
    ensures ZoneRel(r.EnvOf(), old(r.ViewOf()), r.ViewOf(), res.Ok?)
    ensures res.Ok? ==> r.Synced()
  {
    hide ZoneRel, AtClusterZone, NoClusterZone;
    ghost var e, v := r.EnvOf(), r.ViewOf();
    res := UseClusterZone(r);
    ClusterZoneUsed(e, v, r.ViewOf(), res.Ok?);
  }

  method UseNamedZone(r: VpcEndpointReconciler) returns (res: Result<()>)
    requires r.Synced() && ModeOf(r.vpce.spec.dns) == ById
    modifies r`status, r`cache, r`unseen, r.k8s`status, r.k8s`failedWrites, r.k8s`budget, r.aws`budget, r.aws`answers
    ensures ZoneRel(r.EnvOf(), old(r.ViewOf()), r.ViewOf(), res.Ok?)
    ensures res.Ok? ==> r.Synced()
  {
    hide ZoneRel, AgreementKept, Witnessed, Fresh, Accounted, LiveZone;
    ghost var e, v := r.EnvOf(), r.ViewOf();
    res := UseZoneById(r);
    ZoneByIdUsed(e, v, r.ViewOf(), res.Ok?);
  }

  /** validateR53PrivateHostedZone. */
  method ValidateR53PrivateHostedZone(r: VpcEndpointReconciler) returns (res: Result<()>)
    requires r.Synced()
    modifies r`status, r`cache, r`unseen, r.k8s`status, r.k8s`failedWrites, r.k8s`budget
    modifies r.aws`zones, r.aws`nextZone, r.aws`mutations, r.aws`creations, r.aws`budget, r.aws`answers
    ensures ZoneRel(r.EnvOf(), old(r.ViewOf()), r.ViewOf(), res.Ok?)
    ensures res.Ok? ==> r.Synced()
  {
    hide ZoneRel;
    if r.vpce.spec.dns.autoDiscover {
      res := UseDiscoveredZone(r);
    } else if r.vpce.spec.dns.zone != NO_ID {
      res := UseNamedZone(r);
    } else if NamesDomain(r.vpce.spec.dns) {
      res := UseDomainZone(r);
    } else {
      res := Ok(());
      NoZoneUsed(r.EnvOf(), r.ViewOf());
    }
  }

  // ---- the record ----

  /** The CNAME record at .status.resourceRecordSet points to the endpoint in .status.vpcEndpointId. */
  predicate RecordHolds(st: Status, zones: map<Id, Zone>) {
    && LiveZone(st.zone, zones)
    && RecordKey(Fqdn(st.record), CNAME) in zones[st.zone.n].records
    && zones[st.zone.n].records[RecordKey(Fqdn(st.record), CNAME)] == EndpointDns(st.endpoint)
  }

  /** The record is the one the CR asks for in its zone. */
  predicate RecordAsked(dns: DnsSpec, st: Status, zones: map<Id, Zone>) {
    st.recordCond == CondTrue && LiveZone(st.zone, zones) ==>
      st.record == RecordName(dns.hostname, zones[st.zone.n].name)
  }

  /** Whenever the record condition says so. */
  predicate RecordTrue(st: Status, zones: map<Id, Zone>) {
    st.recordCond == CondTrue ==> RecordHolds(st, zones)
  }

  /** A True record condition comes with everything that cleaning the record up needs. */
  predicate RecordNamed(st: Status) {
    st.recordCond == CondTrue ==> st.zone != NoZone && st.record != ""
  }

  predicate RecordDone(st: Status) {
    st.recordCond == CondTrue && st.endpointCond == CondTrue
  }

  function RecordName(hostname: string, zoneName: string): (name: string)
    ensures name != ""
  {
    hostname + "." + TrimDots(zoneName)
  }

  /** The endpoint has a DNS name: AWS publishes one once it is available in some subnet. */
  predicate HasDnsName(e: Endpoint) {
    e.state == Available && e.subnets != {}
  }

  predicate DnsNamed(st: Status, endpoints: map<Id, Endpoint>) {
    st.endpoint in endpoints && HasDnsName(endpoints[st.endpoint])
  }

  /** generateRoute53Record: None when there is nothing to record. */
  method GenerateRoute53Record(r: VpcEndpointReconciler) returns (res: Result<Option<RecordValue>>)
    modifies r.aws`budget
    ensures r.aws.budget <= old(r.aws.budget)
    ensures res.Ok? && res.value.Some? ==>
      DnsNamed(r.status, r.aws.endpoints) && res.value.value == EndpointDns(r.status.endpoint)
    ensures r.aws.budget == old(r.aws.budget) && DnsNamed(r.status, r.aws.endpoints) ==>
      res.Ok? && res.value.Some?
  {
    if r.status.endpoint == NO_ID {
      return Err(Unhealthy);
    }
    var described := r.aws.DescribeEndpoint(r.status.endpoint);
    if described.Err? {
      return Err(described.error);
    }
    if described.value.None? {
      return Ok(None);
    }
    if described.value.value.state != Available {
      return Err(Unhealthy);
    }
    if described.value.value.subnets == {} {
      return if r.vpce.deleting then Ok(None) else Err(Unhealthy);
    }
    res := Ok(Some(EndpointDns(r.status.endpoint)));
  }

  /** The zones after the record was written. */
  function Upserted(st: Status, name: string, zones: map<Id, Zone>): map<Id, Zone>
    requires LiveZone(st.zone, zones)
  {
    zones[st.zone.n := WithRecord(zones[st.zone.n], name, EndpointDns(st.endpoint))]
  }

  /** The zone changes only by the upsert, and the status only after it. */
  predicate RecordStep(st: Status, st': Status, zones: map<Id, Zone>, zones': map<Id, Zone>, name: string) {
    || (zones' == zones && st' == st)
    || (LiveZone(st.zone, zones) && zones' == Upserted(st, name, zones) &&
        (st' == st || st' == st.(record := name, recordCond := CondTrue)))
  }

  /** The upsert and the status update that follows it. */
  method WriteRecord(r: VpcEndpointReconciler, name: string) returns (res: Result<()>)
    requires r.Synced() && r.status.zone != NoZone
    modifies r`status, r.k8s`status, r.k8s`failedWrites, r.k8s`budget, r.aws`zones, r.aws`mutations, r.aws`budget
    ensures r.aws.budget <= old(r.aws.budget)
      && Spent(old(r.k8s.budget), old(r.k8s.failedWrites), r.k8s.budget, r.k8s.failedWrites)
    ensures r.aws.mutations == old(r.aws.mutations) + 1
    ensures RecordStep(old(r.status), r.status, old(r.aws.zones), r.aws.zones, name)
    ensures r.k8s.status == old(r.status) || r.k8s.status == r.status
    ensures res.Ok? ==> r.Synced() && r.status.recordCond == CondTrue
    ensures res.Err? && r.aws.budget == old(r.aws.budget) && r.k8s.budget == old(r.k8s.budget) ==>
      !LiveZone(r.status.zone, r.aws.zones)
  {
    res := r.aws.Upsert(r.status.zone.n, name, EndpointDns(r.status.endpoint));
    if res.Err? {
      return;
    }
    r.status := r.status.(record := name, recordCond := CondTrue);
    res := r.SaveStatus();
  }

  lemma RecordStepAgreement(cache: map<ZoneRef, CacheEntry>, st: Status, st': Status, zones: map<Id, Zone>,
                            zones': map<Id, Zone>, name: string, now: nat)
    requires RecordStep(st, st', zones, zones', name)
    ensures AgreementKept(cache, zones, cache, zones', now)
  {
  }

  lemma NameIsKnown(cache: map<ZoneRef, CacheEntry>, unseen: set<(ZoneRef, Id)>, zones: map<Id, Zone>, next: Id,
                    now: nat,
                    ref: ZoneRef)
    requires Accounted(cache, unseen, zones, next, now) && LiveZone(ref, zones) && ref in cache
    ensures cache[ref].name == zones[ref.n].name
  {
  }

  lemma RecordIsElsewhere(cache: map<ZoneRef, CacheEntry>, unseen: set<(ZoneRef, Id)>, st: Status, st': Status,
                          zones: map<Id, Zone>, next: Id, zones': map<Id, Zone>, name: string, now: nat)
    requires Accounted(cache, unseen, zones, next, now) && RecordStep(st, st', zones, zones', name)
    ensures Accounted(cache, unseen, zones', next, now)
  {
    hide Explained;
    AccountedElsewhere(cache, unseen, zones, next, zones', next, now);
  }

  /** validateR53HostedZoneRecord: skipped when the conditions say record and endpoint are in place.
      `zoneName` is the name of the zone as GetHostedZone gave it. */
  method ValidateR53HostedZoneRecord(r: VpcEndpointReconciler) returns (res: Result<()>, ghost zoneName: string)
    requires r.Synced()
    modifies r`status, r`cache, r`unseen, r.k8s`status, r.k8s`failedWrites, r.k8s`budget
    modifies r.aws`zones, r.aws`mutations, r.aws`budget, r.aws`answers
    ensures r.aws.budget <= old(r.aws.budget)
      && Spent(old(r.k8s.budget), old(r.k8s.failedWrites), r.k8s.budget, r.k8s.failedWrites)
    ensures RecordDone(old(r.status)) ==>
      res.Ok? && r.status == old(r.status) && r.k8s.status == old(r.status) && r.cache == old(r.cache)
      && r.aws.zones == old(r.aws.zones) && r.aws.mutations == old(r.aws.mutations)
    ensures r.status == old(r.status).(record := r.status.record, recordCond := r.status.recordCond)
    ensures r.k8s.status == old(r.status) || r.k8s.status == r.status
    ensures RecordStep(old(r.status), r.status, old(r.aws.zones), r.aws.zones,
      RecordName(r.vpce.spec.dns.hostname, zoneName))
    ensures r.aws.mutations == old(r.aws.mutations) ==> r.aws.zones == old(r.aws.zones)
    ensures AgreementKept(old(r.cache), old(r.aws.zones), r.cache, r.aws.zones, r.aws.now)
    ensures Witnessed(old(r.cache), old(r.aws.answers)) ==> Witnessed(r.cache, r.aws.answers)
    ensures Accounted(old(r.cache), old(r.unseen), old(r.aws.zones), r.aws.nextZone, r.aws.now) ==>
      Accounted(r.cache, r.unseen, r.aws.zones, r.aws.nextZone, r.aws.now)
    // a cached name is the zone's name
    ensures Accounted(old(r.cache), old(r.unseen), old(r.aws.zones), r.aws.nextZone, r.aws.now)
            && r.status != old(r.status) ==>
      LiveZone(r.status.zone, old(r.aws.zones)) && zoneName == old(r.aws.zones)[r.status.zone.n].name
    ensures res.Ok? ==> r.Synced()
    // looking up an empty zone id is an error, and so is looking up one that is gone, unless it is still cached
    ensures !RecordDone(old(r.status)) && r.status.zone == NoZone ==> res.Err?
    ensures !RecordDone(old(r.status)) && res.Ok? ==>
      LiveZone(r.status.zone, old(r.aws.zones)) || Fresh(old(r.cache), r.status.zone, r.aws.now)
    // without faults
    ensures r.aws.budget == old(r.aws.budget) && r.k8s.budget == old(r.k8s.budget) ==>
      && (res.Err? ==> !LiveZone(r.status.zone, r.aws.zones))
      && (res.Ok? && DnsNamed(r.status, r.aws.endpoints) ==> r.status.recordCond == CondTrue)
  {
    hide RecordName, AgreementKept, Upserted, Witnessed, Accounted;
    zoneName := "";
    AgreementSelf(r.cache, r.aws.zones, r.aws.now);
    ghost var cache, st, zones := r.cache, r.status, r.aws.zones;
    if r.status.recordCond == CondTrue && r.status.endpointCond == CondTrue {
      return Ok(()), zoneName;
    }
    var resp := GetHostedZoneCached(r, r.status.zone);
    if resp.Err? {
      return Err(resp.error), zoneName;
    }
    var record := GenerateRoute53Record(r);
    if record.Err? || record.value.None? {
      return Ok(()), zoneName;
    }
    zoneName := resp.value.name;
    if Accounted(cache, old(r.unseen), zones, r.aws.nextZone, r.aws.now) && LiveZone(st.zone, zones)
      && st.zone in cache {
      NameIsKnown(cache, old(r.unseen), zones, r.aws.nextZone, r.aws.now, st.zone);
    }
    res := WriteRecord(r, RecordName(r.vpce.spec.dns.hostname, resp.value.name));
    RecordStepAgreement(r.cache, st, r.status, zones, r.aws.zones, RecordName(r.vpce.spec.dns.hostname, zoneName),
      r.aws.now);
    if Accounted(r.cache, r.unseen, zones, r.aws.nextZone, r.aws.now) {
      RecordIsElsewhere(r.cache, r.unseen, st, r.status, zones, r.aws.nextZone, r.aws.zones,
        RecordName(r.vpce.spec.dns.hostname, zoneName), r.aws.now);
    }
    AgreementTwice(cache, zones, r.cache, zones, r.cache, r.aws.zones, r.aws.now);
  }

  /** Writing the record keeps what a True condition promises, and makes it true. */
  lemma RecordStepKeepsRecordTrue(st: Status, st': Status, zones: map<Id, Zone>, zones': map<Id, Zone>, name: string)
    requires RecordStep(st, st', zones, zones', name) && RecordTrue(st, zones)
    ensures RecordTrue(st, zones') && RecordTrue(st', zones')
  {
  }

  // ---- when the skip is right ----

  /** Skipping the upsert does what always upserting would do, namely nothing, exactly when zone, endpoint and name are
      those for which the record was written. */
  lemma SkipRefinesUpsertIff(st: Status, st': Status, name: string)
    requires st.recordCond == CondTrue && st.zone != NoZone && st'.zone != NoZone
    ensures (forall zones: map<Id, Zone> | RecordHolds(st, zones) && LiveZone(st'.zone, zones) ::
      Upserted(st', name, zones) == zones) <==>
            st'.zone.n == st.zone.n && st'.endpoint == st.endpoint && Fqdn(name) == Fqdn(st.record)
  {
    hide NewZone;
    if st'.zone.n == st.zone.n && st'.endpoint == st.endpoint && Fqdn(name) == Fqdn(st.record) {
      forall zones: map<Id, Zone> | RecordHolds(st, zones)
        ensures Upserted(st', name, zones) == zones
      {
        var z := zones[st.zone.n];
        assert WithRecord(z, name, EndpointDns(st'.endpoint)).records == z.records;
      }
    } else {
      var zone := Zone("example.com.", true, {}, Tags("", {}, false, false), map[]);
      var zones := map[st'.zone.n := zone][st.zone.n := WithRecord(zone, st.record, EndpointDns(st.endpoint))];
      assert RecordHolds(st, zones);
      var key := RecordKey(Fqdn(name), CNAME);
      assert key in Upserted(st', name, zones)[st'.zone.n].records;
      assert Upserted(st', name, zones)[st'.zone.n].records[key] == EndpointDns(st'.endpoint);
    }
  }

  /** After a zone was found, a True condition goes on meaning what it says exactly when that is the recorded zone: the
      zone is overwritten, the condition is not reset, and so the upsert is skipped. */
  lemma FoundZoneSafeIff(st: Status, found: ZoneRef)
    requires RecordNamed(st) && found != NoZone
    ensures (forall zones: map<Id, Zone> | RecordTrue(st, zones) :: RecordTrue(st.(zone := found), zones)) <==>
            st.recordCond != CondTrue || found.n == st.zone.n
  {
    if st.recordCond == CondTrue && found.n != st.zone.n {
      var zones := map[st.zone.n := WithRecord(NewZone("example.com", NO_ID), st.record, EndpointDns(st.endpoint))];
      assert RecordTrue(st, zones);
      assert !RecordTrue(st.(zone := found), zones);
    }
  }

  /** An input on which it does not: the VPC has been moved from one zone of the cluster's name to another. Every
      successful zone validation records the other zone, which has no record, and the record counts as done. */
  lemma SwappedZoneLacksRecord(e: Env, v: View)
    requires ModeOf(e.spec.dns) == AutoDiscover && e.lookups.baseDomain == Some("example.com") && NoZone !in v.cache
    requires v.kept == v.status && v.status.zone == Bare(1) && v.status.vpc == 7 && v.status.record == "api.example.com"
    requires v.status.recordCond == v.status.endpointCond == CondTrue
    requires v.zones == map[1 := WithRecord(NewZone("example.com", 9), v.status.record, EndpointDns(v.status.endpoint)),
                            2 := NewZone("example.com", 7)]
    ensures RecordTrue(v.status, v.zones)
    ensures var st := v.status.(zone := Bare(2)); ZoneRel(e, v, v.(status := st, kept := st), true)
    ensures forall w | ZoneRel(e, v, w, true) :: RecordDone(w.status) && !RecordTrue(w.status, w.zones)
  {
    var st := v.status.(zone := Bare(2));
    var base := "example.com";
    assert !IsClusterZone(v.zones[1], base, 7) && IsClusterZone(v.zones[2], base, 7);
    ClusterZoneUsed(e, v, v.(status := st, kept := st), true);
    forall w | ZoneRel(e, v, w, true)
      ensures RecordDone(w.status) && !RecordTrue(w.status, w.zones)
    {
      assert ZoneChosen(e.spec.dns, w.status, w.zones, e.lookups) && w.zones == v.zones;
      assert w.status.zone == Bare(2);
    }
  }

  /** A True record condition that means what it says, of the record that is asked for, makes the upsert needless. */
  lemma SkippedUpsertIsNoOp(dns: DnsSpec, st: Status, zones: map<Id, Zone>)
    requires st.recordCond == CondTrue && RecordTrue(st, zones) && RecordAsked(dns, st, zones)
    ensures Upserted(st, RecordName(dns.hostname, zones[st.zone.n].name), zones) == zones
  {
    SkipRefinesUpsertIff(st, st, st.record);
  }

  // ---- the service ----

  predicate WantsService(dns: DnsSpec) {
    dns.hostname != "" && dns.externalName != ""
  }

  predicate ServiceDone(dns: DnsSpec, st: Status, service: Option<string>) {
    WantsService(dns) ==> service == Some(st.record) && st.record != ""
  }

  /** validateExternalNameService. */
  method ValidateExternalNameService(r: VpcEndpointReconciler) returns (res: Result<()>)
    requires r.Synced()
    modifies r`status, r.k8s`status, r.k8s`failedWrites, r.k8s`service, r.k8s`serviceWrites, r.k8s`budget
    ensures Spent(old(r.k8s.budget), old(r.k8s.failedWrites), r.k8s.budget, r.k8s.failedWrites)
    ensures r.status == old(r.status).(serviceCond := r.status.serviceCond)
    ensures r.k8s.status == old(r.status) || r.k8s.status == r.status
    ensures r.k8s.service == old(r.k8s.service) || r.k8s.service == Some(r.status.record)
    ensures res.Ok? ==> r.Synced() && ServiceDone(r.vpce.spec.dns, r.status, r.k8s.service)
    // whether there is to be one
    ensures var dns := r.vpce.spec.dns;
            if dns.hostname == "" || dns.externalName == "" then
              && res.Ok? && r.status == old(r.status) && r.k8s.status == old(r.k8s.status)
              && r.k8s.service == old(r.k8s.service) && r.k8s.serviceWrites == old(r.k8s.serviceWrites)
            else res.Ok? ==> r.k8s.service == Some(r.status.record) && r.status.record != ""
    // a service that is right is left alone, and so is its condition, even when that says False
    ensures ServiceDone(r.vpce.spec.dns, old(r.status), old(r.k8s.service)) ==>
      r.k8s.service == old(r.k8s.service) && r.k8s.serviceWrites == old(r.k8s.serviceWrites)
    ensures ServiceDone(r.vpce.spec.dns, old(r.status), old(r.k8s.service)) && r.k8s.budget == old(r.k8s.budget) ==>
      res.Ok? && r.status == old(r.status)
    // what becomes of the condition under faults: a failed read or update sets it to False, and it only becomes True
    // when the service is right
    ensures WantsService(r.vpce.spec.dns) && r.status.record != "" && res.Err?
            && r.k8s.serviceWrites == old(r.k8s.serviceWrites) ==>
      r.status.serviceCond == CondFalse
    ensures old(r.k8s.service).Some? && r.k8s.serviceWrites != old(r.k8s.serviceWrites) ==>
      if res.Ok? then r.status.serviceCond == CondTrue
      else r.status.serviceCond == CondFalse || r.k8s.failedWrites > old(r.k8s.failedWrites)
    ensures r.status.serviceCond == CondTrue && old(r.status.serviceCond) != CondTrue ==>
      r.k8s.service == Some(r.status.record)
    ensures old(r.k8s.service).None? && r.k8s.serviceWrites != old(r.k8s.serviceWrites) ==>
      r.status.serviceCond == CondTrue || r.status.serviceCond == old(r.status.serviceCond)
    // without faults the condition is set to True together with a write of the service, and else left alone
    ensures r.k8s.budget == old(r.k8s.budget) ==>
      r.k8s.status == r.status
      && r.k8s.serviceWrites >= old(r.k8s.serviceWrites)
      && r.status.serviceCond == if r.k8s.serviceWrites == old(r.k8s.serviceWrites) then old(r.status.serviceCond)
            else CondTrue
    // a reconcile that creates the service does not go through
    ensures old(r.k8s.service).None? && r.k8s.serviceWrites != old(r.k8s.serviceWrites) ==> res.Err?
    // without faults, an error means that the service has just been created or that there is no record yet
    ensures res.Err? && r.k8s.budget == old(r.k8s.budget) ==>
      || (old(r.k8s.service) == None && WantsService(r.vpce.spec.dns) && r.k8s.service == Some(r.status.record)
            && r.status.serviceCond == CondTrue)
      || r.status.record == ""
  {
    if !WantsService(r.vpce.spec.dns) {
      return Ok(());
    }
    if r.status.record == "" {
      return Err(Unhealthy);
    }
    var expected := r.status.record;
    var found := r.k8s.GetService();
    if found.Err? {
      if found.error == NotFound {
        var created := r.k8s.CreateService(expected);
        if created.Err? {
          return Err(created.error);
        }
        r.status := r.status.(serviceCond := CondTrue);
        res := r.SaveStatus();
        if res.Err? {
          return;
        }
        return Err(Requeue);
      }
      r.status := r.status.(serviceCond := CondFalse);
      res := r.SaveStatus();
      if res.Ok? {
        res := Err(found.error);
      }
      return;
    }
    if found.value != expected {
      var updated := r.k8s.UpdateService(expected);
      if updated.Err? {
        r.status := r.status.(serviceCond := CondFalse);
        res := r.SaveStatus();
        if res.Ok? {
          res := Err(updated.error);
        }
        return;
      }
      r.status := r.status.(serviceCond := CondTrue);
      res := r.SaveStatus();
      return;
    }
    res := Ok(());
  }

  // ---- the whole stage ----

  lemma ZonesKeptRecordTrue(st: Status, st': Status, zones: map<Id, Zone>, zones': map<Id, Zone>)
    requires RecordTrue(st, zones) && ZonesKept(zones, zones')
    requires st' == st.(zone := st'.zone, tagsCond := st'.tagsCond)
             && (st.recordCond == CondTrue && st.zone != NoZone ==> st'.zone == st.zone)
    ensures RecordTrue(st', zones')
  {
  }

  lemma RecordNamedIgnoresTags(st: Status, st': Status)
    requires st' == st.(zone := st'.zone, tagsCond := st'.tagsCond) && (st.zone != NoZone ==> st'.zone != NoZone)
    ensures RecordNamed(st) ==> RecordNamed(st')
  {
  }

  /** What the three validations after the zone keep: the zone that is recorded, the zones there are and
      what a True record condition stands for. */
  ghost predicate Tail(dns: DnsSpec, st: Status, zones: map<Id, Zone>, st': Status, zones': map<Id, Zone>) {
    && st' == st.(record := st'.record, recordCond := st'.recordCond, serviceCond := st'.serviceCond)
    && zones'.Keys == zones.Keys
    && (forall i | i in zones ::
          && zones'[i].name == zones[i].name && zones'[i].private == zones[i].private
          && zones'[i].tags == zones[i].tags && zones[i].vpcs <= zones'[i].vpcs)
    && (forall i | i in zones && (st.zone == NoZone || i != st.zone.n) :: zones'[i] == zones[i])
    && (RecordNamed(st) ==> RecordNamed(st'))
    && (RecordTrue(st, zones) ==> RecordTrue(st', zones'))
    && (st'.recordCond == CondTrue && st.recordCond != CondTrue ==> LiveZone(st.zone, zones))
  }

  lemma TailTwice(dns: DnsSpec, st: Status, zones: map<Id, Zone>, st': Status, zones': map<Id, Zone>, st'': Status,
                  zones'': map<Id, Zone>)
    requires Tail(dns, st, zones, st', zones') && Tail(dns, st', zones', st'', zones'')
    ensures Tail(dns, st, zones, st'', zones'')
  {
  }

  lemma TailFacts(dns: DnsSpec, l: Lookups, st: Status, zones: map<Id, Zone>, st': Status, zones': map<Id, Zone>,
                  next: Id)
    requires Tail(dns, st, zones, st', zones')
    ensures ZoneIds(zones, next) ==> ZoneIds(zones', next)
    ensures ZoneDone(dns, st, zones, l) ==> ZoneDone(dns, st', zones', l)
    ensures st'.zone == st.zone && KeysKept(zones, zones') && zones'.Keys == zones.Keys && ServersStay(zones, zones')
    ensures RecordNamed(st) ==> RecordNamed(st')
    ensures LiveZone(st.zone, zones) <==> LiveZone(st'.zone, zones')
    ensures st'.recordCond == CondTrue && st.recordCond != CondTrue ==> LiveZone(st.zone, zones)
    ensures RecordAsked(dns, st, zones) && st'.record == st.record && st'.recordCond == st.recordCond ==>
      RecordAsked(dns, st', zones')
  {
    hide RecordName;
  }

  /** The three later validations leave the choice of zone alone. */
  lemma TailChoice(dns: DnsSpec, l: Lookups, st: Status, zones: map<Id, Zone>, st': Status, zones': map<Id, Zone>)
    requires Tail(dns, st, zones, st', zones') && OneClusterZone(dns, st.vpc, zones, l) && ZoneChosen(dns, st, zones, l)
    requires st.vpc != NO_ID
    ensures ChoiceHolds(dns, st', zones', l)
  {
    assert ZoneChosen(dns, st', zones', l);
    if ModeOf(dns) == AutoDiscover && l.baseDomain.Some? {
      forall i | i in zones' && i != st.zone.n
        ensures !IsClusterZone(zones'[i], l.baseDomain.value, st.vpc)
      {
        assert zones'[i] == zones[i];
      }
    }
    ChosenIsPinned(dns, st', zones', l);
  }

  /** The zone validation alone keeps the choice that a True record condition stands for. */
  lemma ZoneKeepsChoice(e: Env, v: View, w: View, st: Status, ok: bool)
    requires ZoneRel(e, v, w, ok) && RecordTrue(v.status, v.zones)
      && ChoiceHolds(e.spec.dns, v.status, v.zones, e.lookups)
    requires st == w.kept || st == w.status
    ensures ChoiceHolds(e.spec.dns, st, w.zones, e.lookups)
    ensures ZoneIds(v.zones, v.nextZone) && RecordAsked(e.spec.dns, v.status, v.zones) ==>
      RecordAsked(e.spec.dns, st, w.zones)
  {
    hide RecordName, Accounted, TagsGrew;
    hide AgreementKept, Witnessed, FreshLive, ZoneIds, MayCreateZone;
  }

  lemma TailRecord(dns: DnsSpec, st: Status, zones: map<Id, Zone>, st': Status, zones': map<Id, Zone>)
    requires Tail(dns, st, zones, st', zones')
    ensures RecordTrue(st, zones) ==> RecordTrue(st', zones')
    ensures forall cluster :: TagsTrue(dns, cluster, st, zones) ==> TagsTrue(dns, cluster, st', zones')
    ensures st' == st.(record := st'.record, recordCond := st'.recordCond, serviceCond := st'.serviceCond)
  {
  }

  lemma RecordStepIsTail(dns: DnsSpec, st: Status, st': Status, zones: map<Id, Zone>, zones': map<Id, Zone>,
                         name: string)
    requires RecordStep(st, st', zones, zones', name) && name != ""
    ensures Tail(dns, st, zones, st', zones')
    ensures Tail(dns, st, zones, st, zones')
  {
    if RecordTrue(st, zones) {
      RecordStepKeepsRecordTrue(st, st', zones, zones', name);
    }
  }

  lemma AssociationsAreTail(dns: DnsSpec, st: Status, zones: map<Id, Zone>, zones': map<Id, Zone>, more: set<Id>)
    requires OnlyVpcsAdded(zones, zones', st.zone, more)
    ensures Tail(dns, st, zones, st, zones')
  {
  }

  lemma ServiceIsTail(dns: DnsSpec, st: Status, st': Status, zones: map<Id, Zone>)
    requires st' == st.(serviceCond := st'.serviceCond)
    ensures Tail(dns, st, zones, st', zones)
  {
  }

  /** No service has to be created, after which the program asks to be called again. */
  predicate ServiceThere(dns: DnsSpec, service: Option<string>) {
    WantsService(dns) ==> service.Some?
  }

  /** Without faults, a pass that writes the service finds it right, and any other leaves its condition alone. */
  predicate ServiceFollows(v: View, w: View) {
    && v.serviceWrites <= w.serviceWrites
    && w.kept.serviceCond == if w.serviceWrites == v.serviceWrites then v.status.serviceCond else CondTrue
  }

  /** What the association and service validations promise together. */
  ghost predicate ServiceRel(e: Env, v: View, w: View, ok: bool, bare: bool) {
    var dns, st, calm := e.spec.dns, v.status, CacheInv(v.cache, v.zones, e.now, bare) && Spelled(v.status.zone, bare);
    && Spends(v, w)
    && w.kept == st.(serviceCond := w.kept.serviceCond)
    && Tail(dns, st, v.zones, w.kept, w.zones)
    && (ok ==> w.kept == w.status) && NoZone !in w.cache
    && (Witnessed(v.cache, v.answers) ==> Witnessed(w.cache, w.answers)) && (CacheKnown(e, v) ==> CacheKnown(e, w))
    && (calm && w.lost == v.lost ==> CacheInv(w.cache, w.zones, e.now, bare))
    && (w.k8sBudget == v.k8sBudget ==> ServiceFollows(v, w))
    && (calm && AssociationsDone(dns.associated, st.zone, v.zones) && ServiceDone(dns, st, v.service) ==>
          w.zones == v.zones && w.mutations == v.mutations && w.serviceWrites == v.serviceWrites)
    && (calm && st.record != "" && NoFaults(v, w) ==>
          || (AssociationsDone(dns.associated, w.kept.zone, w.zones) && ServiceDone(dns, w.kept, w.service))
          || (dns.associated != [] && !AssociationsHealthy(dns.associated, w.kept.zone, w.zones, e.lookups.secrets)))
    // the service is not written before all VPCs are associated
    && (calm && w.serviceWrites != v.serviceWrites ==> AssociationsDone(dns.associated, w.kept.zone, w.zones))
    // when it succeeds
    && (calm && ok ==> AssociationsDone(dns.associated, w.kept.zone, w.zones))
    && (calm && st.record != "" && NoFaults(v, w) && ServiceThere(dns, v.service) ==>
          ok || (dns.associated != [] && !AssociationsHealthy(dns.associated, w.kept.zone, w.zones, e.lookups.secrets)))
  }

  /** What the association loop promises, with agreement stated for a whole spelling. */
  ghost predicate AssociationRel(e: Env, v: View, w: View, ok: bool, bare: bool) {
    var dns, st, calm := e.spec.dns, v.status, CacheInv(v.cache, v.zones, e.now, bare) && Spelled(v.status.zone, bare);
    && Spends(v, w)
    && w.status == v.status && w.kept == v.kept && w.service == v.service && w.serviceWrites == v.serviceWrites
    && Tail(dns, st, v.zones, st, w.zones)
    && NoZone !in w.cache
    && (Witnessed(v.cache, v.answers) ==> Witnessed(w.cache, w.answers)) && (CacheKnown(e, v) ==> CacheKnown(e, w))
    // only an association that AWS carried out although the call failed makes a right cache wrong
    && (calm && w.lost == v.lost ==> CacheInv(w.cache, w.zones, e.now, bare))
    && (calm && AssociationsDone(dns.associated, st.zone, v.zones) ==> w.zones == v.zones && w.mutations == v.mutations)
    && (calm && ok ==> AssociationsDone(dns.associated, st.zone, w.zones))
    && (calm && !ok && NoFaults(v, w) ==>
          dns.associated != [] && !AssociationsHealthy(dns.associated, st.zone, w.zones, e.lookups.secrets))
  }

  method ValidateAuthorization(r: VpcEndpointReconciler, ghost bare: bool) returns (res: Result<()>)
    requires r.Synced()
    modifies r`cache, r`unseen, r.k8s`budget, r.aws`zones, r.aws`authorized, r.aws`lost, r.aws`mutations, r.aws`budget
    modifies r.aws`answers
    ensures AssociationRel(r.EnvOf(), old(r.ViewOf()), r.ViewOf(), res.Ok?, bare)
  {
    hide Tail, OnlyVpcsAdded, CacheInv, Witnessed, AssociationsDone, AssociationsHealthy, AgreesAt, Accounted;
    ghost var dns, st, zones, cache := r.vpce.spec.dns, r.status, r.aws.zones, r.cache;
    ghost var agrees := CacheInv(cache, zones, r.aws.now, bare) && Spelled(st.zone, bare);
    if agrees {
      CacheInvAgrees(cache, zones, r.aws.now, bare, st.zone);
    }
    ghost var lost;
    res, lost := ValidateR53HostedZoneAuthorization(r);
    AssociationsAreTail(dns, st, zones, r.aws.zones, VpcsOf(dns.associated));
    if agrees && lost.None? {
      CacheInvAssociated(cache, zones, r.cache, r.aws.zones, r.aws.now, bare, st.zone, VpcsOf(dns.associated));
    }
  }

  /** The service changes neither zones nor cache. */
  lemma AssociationsThenService(e: Env, v: View, m: View, w: View, ok: bool, okAssociations: bool, bare: bool)
    requires AssociationRel(e, v, m, okAssociations, bare) && v.kept == v.status
    requires w == m.(status := w.status, kept := w.kept, service := w.service, serviceWrites := w.serviceWrites,
                     failedWrites := w.failedWrites, k8sBudget := w.k8sBudget)
    requires Spends(m, w) && (w.kept == v.status || w.kept == v.status.(serviceCond := w.kept.serviceCond))
    requires ok ==> okAssociations && w.kept == w.status
    requires okAssociations || w == m
    requires ServiceDone(e.spec.dns, v.status, v.service) ==> w.serviceWrites == v.serviceWrites
    requires w.k8sBudget == m.k8sBudget ==> ServiceFollows(m, w)
    requires okAssociations && v.status.record != "" && w.k8sBudget == m.k8sBudget ==>
      ServiceDone(e.spec.dns, w.kept, w.service) && (ServiceThere(e.spec.dns, v.service) ==> ok)
    ensures ServiceRel(e, v, w, ok, bare)
  {
    hide Tail, CacheInv, Witnessed, AssociationsDone, AssociationsHealthy, ServiceDone, Accounted;
    ServiceIsTail(e.spec.dns, v.status, w.kept, w.zones);
    TailTwice(e.spec.dns, v.status, v.zones, v.status, w.zones, w.kept, w.zones);
  }

  /** The last two of the four validations. */
  method ValidateBelowRecord(r: VpcEndpointReconciler, ghost bare: bool) returns (res: Result<()>)
    requires r.Synced()
    modifies r`status, r`cache, r`unseen, r.k8s`status, r.k8s`failedWrites, r.k8s`service, r.k8s`serviceWrites
    modifies r.k8s`budget
    modifies r.aws`zones, r.aws`authorized, r.aws`lost, r.aws`mutations, r.aws`budget, r.aws`answers
    ensures ServiceRel(r.EnvOf(), old(r.ViewOf()), r.ViewOf(), res.Ok?, bare)
    ensures res.Ok? ==> r.Synced()
  {
    hide AssociationRel, ServiceRel, Naming.GetClusterLegacyTagKey;
    ghost var e, v := r.EnvOf(), r.ViewOf();
    res := ValidateAuthorization(r, bare);
    ghost var m, ok := r.ViewOf(), res.Ok?;
    if res.Ok? {
      res := ValidateExternalNameService(r);
    }
    AssociationsThenService(e, v, m, r.ViewOf(), res.Ok?, ok, bare);
  }

  predicate BelowZoneDone(dns: DnsSpec, st: Status, zones: map<Id, Zone>, service: Option<string>) {
    && RecordDone(st)
    && AssociationsDone(dns.associated, st.zone, zones)
    && ServiceDone(dns, st, service)
  }

  predicate BelowZoneHealthy(dns: DnsSpec, st: Status, endpoints: map<Id, Endpoint>, l: Lookups) {
    && DistinctVpcs(dns.associated) && (forall a | a in dns.associated :: a.secret in l.secrets)
    && st.endpointCond == CondTrue && DnsNamed(st, endpoints)
  }

  /** What the record validation promises. */
  ghost predicate RecordRel(e: Env, v: View, w: View, ok: bool) {
    var dns, st := e.spec.dns, v.status;
    && Spends(v, w)
    && w.service == v.service && w.serviceWrites == v.serviceWrites && w.endpoints == v.endpoints
    && Tail(dns, st, v.zones, w.kept, w.zones)
    && w.status.zone == st.zone && w.status.endpointCond == st.endpointCond && w.status.endpoint == st.endpoint
    && w.kept.serviceCond == st.serviceCond
    && (ok ==> w.kept == w.status) && NoZone !in w.cache
    && AgreementKept(v.cache, v.zones, w.cache, w.zones, e.now)
    && (Witnessed(v.cache, v.answers) ==> Witnessed(w.cache, w.answers))
    && (w.nextZone == v.nextZone && CacheKnown(e, v) ==> CacheKnown(e, w)) && w.lost == v.lost
    && (w.nextZone == v.nextZone && CacheKnown(e, v) && RecordAsked(dns, st, v.zones) ==>
          RecordAsked(dns, w.kept, w.zones) && RecordAsked(dns, w.status, w.zones))
    && (RecordDone(st) ==>
          ok && w.status == st && w.zones == v.zones && w.mutations == v.mutations && w.cache == v.cache)
    && (!RecordDone(st) && st.zone == NoZone ==> !ok)
    && (!RecordDone(st) && ok ==> LiveZone(st.zone, v.zones) || Fresh(v.cache, st.zone, e.now))
    && (NoFaults(v, w) ==>
          if ok then DnsNamed(st, v.endpoints) ==> w.status.recordCond == CondTrue
          else !LiveZone(st.zone, w.zones))
  }

  method ValidateRecord(r: VpcEndpointReconciler) returns (res: Result<()>)
    requires r.Synced()
    modifies r`status, r`cache, r`unseen, r.k8s`status, r.k8s`failedWrites, r.k8s`budget, r.aws`zones, r.aws`mutations
    modifies r.aws`budget, r.aws`answers
    ensures RecordRel(r.EnvOf(), old(r.ViewOf()), r.ViewOf(), res.Ok?)
    ensures res.Ok? ==> r.Synced()
  {
    hide RecordName, RecordStep, Tail, AgreementKept, Witnessed, LiveZone, Accounted, RecordAsked,
         Naming.GetClusterLegacyTagKey;
    ghost var st, zones := r.status, r.aws.zones;
    ghost var known := Accounted(r.cache, r.unseen, zones, r.aws.nextZone, r.aws.now);
    ghost var zoneName;
    res, zoneName := ValidateR53HostedZoneRecord(r);
    RecordStepIsTail(r.vpce.spec.dns, st, r.status, zones, r.aws.zones, RecordName(r.vpce.spec.dns.hostname, zoneName));
    if known {
      RecordStepAsked(r.vpce.spec.dns, st, r.status, zones, r.aws.zones, zoneName);
    }
  }

  lemma RecordStepAsked(dns: DnsSpec, st: Status, st': Status, zones: map<Id, Zone>, zones': map<Id, Zone>,
                        zoneName: string)
    requires RecordStep(st, st', zones, zones', RecordName(dns.hostname, zoneName))
    requires st' != st ==> LiveZone(st.zone, zones) && zoneName == zones[st.zone.n].name
    ensures RecordAsked(dns, st, zones) ==> RecordAsked(dns, st, zones') && RecordAsked(dns, st', zones')
  {
    hide RecordName;
  }

  /** In which order: the record does not wait for the associations, and the service waits for all of them. */
  ghost predicate BelowOrder(e: Env, v: View, w: View, bare: bool) {
    var calm := CacheInv(v.cache, v.zones, e.now, bare) && Spelled(v.status.zone, bare);
    && (NoFaults(v, w) && LiveZone(v.status.zone, v.zones) && DnsNamed(v.status, v.endpoints) ==>
          w.kept.recordCond == CondTrue)
    && (calm && w.serviceWrites != v.serviceWrites ==> AssociationsDone(e.spec.dns.associated, w.kept.zone, w.zones))
  }

  lemma BelowInOrder(e: Env, v: View, m: View, w: View, ok: bool, bare: bool)
    requires RecordRel(e, v, m, true) && ServiceRel(e, m, w, ok, bare) && m.nextZone == v.nextZone
    ensures BelowOrder(e, v, w, bare)
  {
    hide AgreementKept, Witnessed, AssociationsDone, ServiceDone, LiveZone, KeysKept, DistinctVpcs, Accounted,
         RecordAsked, ServersStay, CacheInv, RecordTrue;
    if CacheInv(v.cache, v.zones, e.now, bare) {
      CacheInvKept(v.cache, v.zones, m.cache, m.zones, e.now, bare);
    }
  }

  lemma RecordOnlyIsBelow(e: Env, v: View, w: View, bare: bool)
    requires RecordRel(e, v, w, false) && w.nextZone == v.nextZone && w.creations == v.creations
    ensures BelowRel(e, v, w, false, bare) && BelowOrder(e, v, w, bare)
  {
    TailFacts(e.spec.dns, e.lookups, v.status, v.zones, w.kept, w.zones, 0);
    if CacheInv(v.cache, v.zones, e.now, bare) {
      CacheInvKept(v.cache, v.zones, w.cache, w.zones, e.now, bare);
    }
  }

  lemma AllBelow(e: Env, v: View, m: View, w: View, ok: bool, bare: bool)
    requires RecordRel(e, v, m, true) && ServiceRel(e, m, w, ok, bare)
    requires m.nextZone == w.nextZone == v.nextZone && w.creations == v.creations && w.endpoints == v.endpoints
    ensures BelowRel(e, v, w, ok, bare)
  {
    hide Tail, CacheInv, AgreementKept, Witnessed, AssociationsDone, ServiceDone, LiveZone, KeysKept, DistinctVpcs,
         Accounted, RecordAsked, ServersStay, BelowZoneReady;
    TailFacts(e.spec.dns, e.lookups, v.status, v.zones, m.status, m.zones, 0);
    TailFacts(e.spec.dns, e.lookups, m.status, m.zones, w.kept, w.zones, 0);
    TailTwice(e.spec.dns, v.status, v.zones, m.status, m.zones, w.kept, w.zones);
    if CacheInv(v.cache, v.zones, e.now, bare) {
      CacheInvKept(v.cache, v.zones, m.cache, m.zones, e.now, bare);
      BelowSuccess(e, v, m, w, ok, bare);
    }
  }

  /** When record, associations and service all succeed. */
  lemma BelowSuccess(e: Env, v: View, m: View, w: View, ok: bool, bare: bool)
    requires RecordRel(e, v, m, true) && ServiceRel(e, m, w, ok, bare)
    requires CacheInv(v.cache, v.zones, e.now, bare) && CacheInv(m.cache, m.zones, e.now, bare)
      && w.endpoints == v.endpoints
    ensures Spelled(v.status.zone, bare) && ok && !LiveZone(v.status.zone, v.zones) ==>
      RecordDone(v.status) && e.spec.dns.associated == []
    ensures Spelled(v.status.zone, bare) && RecordNamed(v.status) && NoFaults(v, w) && BelowZoneReady(e, v) ==> ok
  {
    hide AgreementKept, Witnessed, ServiceDone, KeysKept, DistinctVpcs, Accounted, RecordAsked, RecordTrue, AgreesAt;
  }

  /** What these three need to succeed. */
  predicate BelowZoneReady(e: Env, v: View) {
    var dns, st := e.spec.dns, v.status;
    && ServiceThere(dns, v.service) && BelowZoneHealthy(dns, st, v.endpoints, e.lookups)
    && (LiveZone(st.zone, v.zones) || (RecordDone(st) && dns.associated == []))
  }

  /** What the record, association and service validations promise together; `bare` is a spelling of zone ids. */
  ghost predicate BelowRel(e: Env, v: View, w: View, ok: bool, bare: bool) {
    var dns, calm := e.spec.dns, CacheInv(v.cache, v.zones, e.now, bare) && Spelled(v.status.zone, bare);
    && Spends(v, w)
    && w.nextZone == v.nextZone && w.creations == v.creations
    && Tail(dns, v.status, v.zones, w.kept, w.zones)
    && (ok ==> w.kept == w.status) && NoZone !in w.cache
    && (Witnessed(v.cache, v.answers) ==> Witnessed(w.cache, w.answers)) && (CacheKnown(e, v) ==> CacheKnown(e, w))
    && (calm && w.lost == v.lost ==> CacheInv(w.cache, w.zones, e.now, bare))
    && (CacheKnown(e, v) && RecordAsked(dns, v.status, v.zones) ==> RecordAsked(dns, w.kept, w.zones))
    && (w.k8sBudget == v.k8sBudget ==> ServiceFollows(v, w))
    && (calm && BelowZoneDone(dns, v.status, v.zones, v.service) ==>
          && w.zones == v.zones && w.mutations == v.mutations && w.serviceWrites == v.serviceWrites
          && (NoFaults(v, w) ==> w.kept == v.status))
    && (calm && RecordNamed(v.status) && NoFaults(v, w) && LiveZone(v.status.zone, v.zones)
          && BelowZoneHealthy(dns, v.status, v.endpoints, e.lookups) ==>
          BelowZoneDone(dns, w.kept, w.zones, w.service))
    && (v.status.zone == NoZone && !RecordDone(v.status) ==> !ok)
    // when it succeeds
    && (calm && ok && !LiveZone(v.status.zone, v.zones) ==> RecordDone(v.status) && dns.associated == [])
    && (calm && RecordNamed(v.status) && NoFaults(v, w) && BelowZoneReady(e, v) ==> ok)
  }

  /** The last three of the four validations. */
  method ValidateBelowZone(r: VpcEndpointReconciler, ghost bare: bool) returns (res: Result<()>)
    requires r.Synced()
    modifies r`status, r`cache, r`unseen, r.k8s`status, r.k8s`failedWrites, r.k8s`service, r.k8s`serviceWrites
    modifies r.k8s`budget
    modifies r.aws`zones, r.aws`authorized, r.aws`lost, r.aws`mutations, r.aws`budget, r.aws`answers
    ensures BelowRel(r.EnvOf(), old(r.ViewOf()), r.ViewOf(), res.Ok?, bare)
    ensures BelowOrder(r.EnvOf(), old(r.ViewOf()), r.ViewOf(), bare)
    ensures res.Ok? ==> r.Synced()
  {
    hide RecordRel, ServiceRel, BelowRel, BelowOrder, Naming.GetClusterLegacyTagKey;
    ghost var e, v := r.EnvOf(), r.ViewOf();
    res := ValidateRecord(r);
    if res.Err? {
      RecordOnlyIsBelow(e, v, r.ViewOf(), bare);
      return;
    }
    ghost var m := r.ViewOf();
    res := ValidateBelowRecord(r, bare);
    AllBelow(e, v, m, r.ViewOf(), res.Ok?, bare);
    BelowInOrder(e, v, m, r.ViewOf(), res.Ok?, bare);
  }

  predicate DnsDone(dns: DnsSpec, st: Status, zones: map<Id, Zone>, service: Option<string>, l: Lookups) {
    ZoneDone(dns, st, zones, l) && BelowZoneDone(dns, st, zones, service)
  }

  predicate DnsHealthy(dns: DnsSpec, st: Status, zones: map<Id, Zone>, endpoints: map<Id, Endpoint>, l: Lookups) {
    ZoneHealthy(dns, st, zones, l) && BelowZoneHealthy(dns, st, endpoints, l)
  }

  /** Zone ids are in order, the cache is right for the CR's spelling, and a True record condition comes
      with a zone and a record name. */
  ghost predicate DnsCalm(dns: DnsSpec, st: Status, zones: map<Id, Zone>, next: Id, cache: map<ZoneRef, CacheEntry>,
                          now: nat) {
    && ZoneIds(zones, next)
    && CacheInv(cache, zones, now, BareMode(dns, st.zone))
    && RecordNamed(st)
  }

  /** The zone validation leaves a calm reconciler calm. */
  lemma CalmAfterZone(dns: DnsSpec, st: Status, zones: map<Id, Zone>, next: Id, cache: map<ZoneRef, CacheEntry>,
                      st': Status, zones': map<Id, Zone>, next': Id, cache': map<ZoneRef, CacheEntry>, now: nat)
    requires DnsCalm(dns, st, zones, next, cache, now)
    requires st' == st.(zone := st'.zone, tagsCond := st'.tagsCond) && (st.zone != NoZone ==> st'.zone != NoZone)
    requires BareMode(dns, st'.zone) == BareMode(dns, st.zone) && ZoneIds(zones', next')
    requires ZonesKept(zones, zones') && AgreementKept(cache, zones, cache', zones', now) && NoZone !in cache'
    ensures DnsCalm(dns, st', zones', next', cache', now)
    ensures CacheInv(cache', zones', now, BareMode(dns, st'.zone)) && RecordNamed(st')
  {
    CacheInvKept(cache, zones, cache', zones', now, BareMode(dns, st.zone));
  }

  lemma CalmAfterTail(dns: DnsSpec, st: Status, zones: map<Id, Zone>, next: Id, cache: map<ZoneRef, CacheEntry>,
                      st': Status, zones': map<Id, Zone>, cache': map<ZoneRef, CacheEntry>, now: nat)
    requires DnsCalm(dns, st, zones, next, cache, now) && Tail(dns, st, zones, st', zones')
    requires CacheInv(cache', zones', now, BareMode(dns, st.zone))
    ensures DnsCalm(dns, st', zones', next, cache', now)
  {
  }

  lemma CalmMeans(dns: DnsSpec, st: Status, zones: map<Id, Zone>, next: Id, cache: map<ZoneRef, CacheEntry>, now: nat)
    requires DnsCalm(dns, st, zones, next, cache, now)
    ensures ZoneIds(zones, next) && RecordNamed(st)
    ensures CacheInv(cache, zones, now, BareMode(dns, st.zone)) && FreshLive(cache, zones, now)
  {
  }

  predicate PrivateDnsActive(e: Env) {
    e.privateDns && e.spec.enablePrivateDns
  }

  /** What validateCustomDns promises. */
  ghost predicate DnsRel(e: Env, v: View, w: View, ok: bool) {
    var dns, l := e.spec.dns, e.lookups;
    && Spends(v, w)
    && w.kept == v.status.(zone := w.kept.zone, tagsCond := w.kept.tagsCond, record := w.kept.record,
                           recordCond := w.kept.recordCond,
                           serviceCond := w.kept.serviceCond)
    && (ok ==> w.kept == w.status) && NoZone !in w.cache
    && (w.creations != v.creations ==> v.status.zone == NoZone && MayCreateZone(dns, l, v.zones))
    && (RecordNamed(v.status) ==> RecordNamed(w.kept))
    && (Spelled(v.status.zone, BareMode(dns, v.status.zone)) ==> Spelled(w.kept.zone, BareMode(dns, w.kept.zone)))
    && (ZoneStuck(dns, v.status.zone, v.zones) ==>
          w.kept.zone == v.status.zone && w.zones.Keys == v.zones.Keys && NoNewRecord(dns, v.status, w.kept))
    && v.nextZone <= w.nextZone && (ZoneIds(v.zones, v.nextZone) ==> ZoneHistory(e, v, w))
    && (ZoneIds(v.zones, v.nextZone) ==> ZoneIds(w.zones, w.nextZone))
    // a True record condition keeps its meaning while the CR's zone is pinned
    && (ZoneIds(v.zones, v.nextZone) && RecordTrue(v.status, v.zones)
          && (v.status.recordCond == CondTrue ==> ZonePinned(dns, v.status, v.zones, l)) ==>
          RecordTrue(w.kept, w.zones))
    && (Witnessed(v.cache, v.answers) ==> Witnessed(w.cache, w.answers)) && (CacheKnown(e, v) ==> CacheKnown(e, w))
    && (RecordTrue(v.status, v.zones) && ChoiceHolds(dns, v.status, v.zones, l) && v.status.vpc != NO_ID ==>
          ChoiceHolds(dns, w.kept, w.zones, l)
            && (CacheKnown(e, v) && RecordAsked(dns, v.status, v.zones) ==> RecordAsked(dns, w.kept, w.zones)))
    && (ZoneIds(v.zones, v.nextZone) && TagsTrue(dns, e.cluster, v.status, v.zones) ==>
          TagsTrue(dns, e.cluster, w.kept, w.zones))
    && (w.k8sBudget == v.k8sBudget ==> ServiceFollows(v, w))
    && (ModeOf(dns) != ByDomain ==> w.kept.tagsCond == v.status.tagsCond)
    // without a DNS mode the lookup of the empty zone id fails
    && (ModeOf(dns) == NoDns && v.status.zone == NoZone && !RecordDone(v.status) ==> !ok)
    && (DnsCalm(dns, v.status, v.zones, v.nextZone, v.cache, e.now) ==> DnsProgress(e, v, w, ok))
  }

  /** The validations have been through although the zone cannot be used: without a mode, nobody looks at a zone whose
      record counts as done. */
  predicate Overlooked(dns: DnsSpec, st: Status) {
    ModeOf(dns) == NoDns && RecordDone(st) && dns.associated == []
  }

  /** A calm reconciler stays calm unless AWS carries out an association in a call that fails; what is done is left
      alone; what is not gets done. */
  ghost predicate DnsProgress(e: Env, v: View, w: View, ok: bool) {
    var dns, l := e.spec.dns, e.lookups;
    && (w.lost == v.lost ==> DnsCalm(dns, w.kept, w.zones, w.nextZone, w.cache, e.now))
    && (DnsDone(dns, v.status, v.zones, v.service, l) ==>
          && w.zones == v.zones && w.mutations == v.mutations && w.serviceWrites == v.serviceWrites
          && (NoFaults(v, w) ==> w.kept == v.status))
    && (NoFaults(v, w) && e.cluster != "" && ZoneHealthy(dns, v.status, v.zones, l) ==>
          ZoneDone(dns, w.kept, w.zones, l))
    && (NoFaults(v, w) && e.cluster != "" && DnsHealthy(dns, v.status, v.zones, v.endpoints, l) ==>
          DnsDone(dns, w.kept, w.zones, w.service, l))
    // when the validations succeed
    && (ok && ZoneStuck(dns, v.status.zone, v.zones) ==> Overlooked(dns, v.status))
    && (NoFaults(v, w) && e.cluster != "" && DnsReady(e, v) ==> ok)
  }

  /** What the validations need to succeed. */
  predicate DnsReady(e: Env, v: View) {
    && ServiceThere(e.spec.dns, v.service) && BelowZoneHealthy(e.spec.dns, v.status, v.endpoints, e.lookups)
    && (ZoneHealthy(e.spec.dns, v.status, v.zones, e.lookups) || Overlooked(e.spec.dns, v.status))
  }

  /** Without a DNS mode the validations succeed exactly when a zone is left from an earlier spec, or its record counts
      as done. */
  lemma NoModeSucceedsIff(e: Env, v: View, w: View, ok: bool)
    requires DnsRel(e, v, w, ok) && ModeOf(e.spec.dns) == NoDns && NoFaults(v, w) && e.cluster != ""
    requires DnsCalm(e.spec.dns, v.status, v.zones, v.nextZone, v.cache, e.now)
    requires ServiceThere(e.spec.dns, v.service) && BelowZoneHealthy(e.spec.dns, v.status, v.endpoints, e.lookups)
    ensures ok <==> LiveZone(v.status.zone, v.zones) || (RecordDone(v.status) && e.spec.dns.associated == [])
  {
    hide DnsCalm, BelowZoneHealthy, Tail, RecordTrue, ZonePinned, Witnessed, ChoiceHolds, TagsTrue, RecordAsked,
         CacheKnown;
  }

  lemma ZoneOnlyProgress(e: Env, v: View, w: View)
    requires ZoneRel(e, v, w, false) && DnsCalm(e.spec.dns, v.status, v.zones, v.nextZone, v.cache, e.now)
    ensures DnsProgress(e, v, w, false)
  {
    CalmAfterZone(e.spec.dns, v.status, v.zones, v.nextZone, v.cache, w.kept, w.zones, w.nextZone, w.cache, e.now);
  }

  lemma ZoneOnlyIsDns(e: Env, v: View, w: View)
    requires ZoneRel(e, v, w, false)
    ensures DnsRel(e, v, w, false)
  {
    hide DnsProgress, ZoneDone, ZoneHealthy, DnsCalm, ZonesKept, AgreementKept, FreshLive, Witnessed, Explained;
    hide RecordAsked;
    if RecordTrue(v.status, v.zones) && ChoiceHolds(e.spec.dns, v.status, v.zones, e.lookups) {
      ZoneKeepsChoice(e, v, w, w.kept, false);
    }
    if ZoneIds(v.zones, v.nextZone) && RecordTrue(v.status, v.zones)
      && (v.status.recordCond == CondTrue ==> ZonePinned(e.spec.dns, v.status, v.zones, e.lookups)) {
      ZonesKeptRecordTrue(v.status, w.kept, v.zones, w.zones);
    }
    if DnsCalm(e.spec.dns, v.status, v.zones, v.nextZone, v.cache, e.now) {
      ZoneOnlyProgress(e, v, w);
    }
  }

  lemma BothProgress(e: Env, v: View, m: View, w: View, ok: bool)
    requires ZoneRel(e, v, m, true) && BelowRel(e, m, w, ok, BareMode(e.spec.dns, m.status.zone))
    requires DnsCalm(e.spec.dns, v.status, v.zones, v.nextZone, v.cache, e.now)
    ensures DnsProgress(e, v, w, ok)
  {
    hide ZoneHealthy, ZoneDone, BelowZoneDone, Tail, DnsCalm, CacheInv, ZonesKept, AgreementKept, Witnessed, Spelled,
         LiveZone;
    hide MayCreateZone, ModeOf, BareMode, FreshLive, ZonePinned, DistinctVpcs, Accounted, TagsTrue, ServersStay,
         MadeFor;
    var dns, l := e.spec.dns, e.lookups;
    CalmMeans(dns, v.status, v.zones, v.nextZone, v.cache, e.now);
    SpellingStays(e, v, m);
    CalmAfterZone(dns, v.status, v.zones, v.nextZone, v.cache, m.status, m.zones, m.nextZone, m.cache, e.now);
    if CacheInv(w.cache, w.zones, e.now, BareMode(dns, m.status.zone)) {
      CalmAfterTail(dns, m.status, m.zones, m.nextZone, m.cache, w.kept, w.zones, w.cache, e.now);
    }
    TailFacts(dns, l, m.status, m.zones, w.kept, w.zones, m.nextZone);
    if ZoneDone(dns, m.status, m.zones, l) {
      DoneZoneIsLive(dns, m.status, m.zones, l);
    }
  }

  lemma SpellingStays(e: Env, v: View, m: View)
    requires ZoneRel(e, v, m, true)
    ensures BareMode(e.spec.dns, m.status.zone) == BareMode(e.spec.dns, v.status.zone)
    ensures ZoneStuck(e.spec.dns, v.status.zone, v.zones) ==>
      m.status.zone == v.status.zone && (LiveZone(v.status.zone, v.zones) <==> LiveZone(m.status.zone, m.zones))
    ensures FreshLive(v.cache, v.zones, e.now) && ZoneStuck(e.spec.dns, v.status.zone, v.zones) ==>
      ModeOf(e.spec.dns) == NoDns && m.status == v.status && !LiveZone(m.status.zone, m.zones)
  {
    hide RecordTrue, ZonePinned, Witnessed, AgreementKept, ZonesKept, TagsTrue, CacheKnown, ZoneDone, ZoneHealthy;
  }

  lemma DoneZoneIsLive(dns: DnsSpec, st: Status, zones: map<Id, Zone>, l: Lookups)
    requires ZoneDone(dns, st, zones, l)
    ensures LiveZone(st.zone, zones)
  {
  }

  lemma BothAreDns(e: Env, v: View, m: View, w: View, ok: bool)
    requires ZoneRel(e, v, m, true) && BelowRel(e, m, w, ok, BareMode(e.spec.dns, m.status.zone))
    ensures DnsRel(e, v, w, ok)
  {
    hide DnsProgress, ZoneDone, ZoneHealthy, DnsCalm, ZonesKept, AgreementKept, FreshLive, Witnessed, BelowZoneDone,
         BelowZoneHealthy, CacheInv;
    hide Tail, MayCreateZone, RecordNamed, RecordTrue, ZonePinned, ZoneChosen, OneClusterZone, Explained,
         TagsTrue, RecordAsked, MadeFor, ServersStay, DomainOf;
    var dns, l := e.spec.dns, e.lookups;
    TailFacts(dns, l, m.status, m.zones, w.kept, w.zones, m.nextZone);
    TailRecord(dns, m.status, m.zones, w.kept, w.zones);
    RecordNamedIgnoresTags(v.status, m.status);
    if ZoneHistory(e, v, m) {
      MadeStays(DomainOf(dns, l), v.zones, v.nextZone, m.zones, m.nextZone, w.zones);
    }
    if RecordTrue(v.status, v.zones) && ChoiceHolds(dns, v.status, v.zones, l) && v.status.vpc != NO_ID {
      ZoneKeepsChoice(e, v, m, m.status, true);
      TailChoice(dns, l, m.status, m.zones, w.kept, w.zones);
    }
    if ZoneIds(v.zones, v.nextZone) && RecordTrue(v.status, v.zones)
      && (v.status.recordCond == CondTrue ==> ZonePinned(dns, v.status, v.zones, l)) {
      ZonesKeptRecordTrue(v.status, m.status, v.zones, m.zones);
    }
    if DnsCalm(dns, v.status, v.zones, v.nextZone, v.cache, e.now) {
      BothProgress(e, v, m, w, ok);
    }
  }

  lemma StatusInView(r: VpcEndpointReconciler)
    ensures r.ViewOf().status == r.status
  {
  }

  /** validateCustomDns: skipped while private DNS is active. */
  method ValidateCustomDns(r: VpcEndpointReconciler) returns (res: Result<()>)
    requires r.Synced()
    modifies r`status, r`cache, r`unseen, r.k8s`status, r.k8s`failedWrites, r.k8s`service, r.k8s`serviceWrites
    modifies r.k8s`budget
    modifies r.aws`zones, r.aws`authorized, r.aws`lost, r.aws`nextZone, r.aws`mutations, r.aws`creations, r.aws`budget
    modifies r.aws`answers
    ensures if PrivateDnsActive(r.EnvOf()) then res.Ok? && r.ViewOf() == old(r.ViewOf())
            else DnsRel(r.EnvOf(), old(r.ViewOf()), r.ViewOf(), res.Ok?)
    ensures res.Ok? ==> r.Synced()
  {
    hide VpcEndpointReconciler.ViewOf, ZoneRel, BelowRel, DnsRel, Naming.GetClusterLegacyTagKey;
    if r.enablePrivateDns && r.vpce.spec.enablePrivateDns {
      return Ok(());
    }
    ghost var e, v := r.EnvOf(), r.ViewOf();
    res := ValidateR53PrivateHostedZone(r);
    ghost var m := r.ViewOf();
    StatusInView(r);
    if res.Ok? {
      res := ValidateBelowZone(r, BareMode(r.vpce.spec.dns, r.status.zone));
      BothAreDns(e, v, m, r.ViewOf(), res.Ok?);
    } else {
      ZoneOnlyIsDns(e, v, m);
    }
  }
}
