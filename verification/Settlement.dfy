/** What a settled CR amounts to, said of AWS, the service and the spec alone. */
module Settlement {
  import opened Aws
  import opened Kube
  import opened Rules
  import opened Reconciler
  import opened Subnets
  import opened VpcSelection
  import opened HostedZoneCache
  import opened DnsStage
  import opened EndpointStage
  import opened ClusterInfo
  import opened Validation
  import opened Controller
  import opened Runs
  import opened Convergence
  import Groups = SecurityGroupStage
  import Naming
  import SliceDiff

  // ---- the inputs ----

  /** The service that the spec asks for: named, else referred to, else looked up; None when that cannot be read. */
  lemma SettledInputs(e: Env, infra: string, v: View)
    requires Settled(e, infra, v)
    ensures v.kept.infra == infra != "" && v.kept.vpc != NO_ID
    ensures (e.spec.dns.domainRef.Some? && e.spec.dns.domainRef.value.hcpRef.Some?) && e.lookups.hcpInfra.Some? ==>
      infra == e.lookups.hcpInfra.value
    ensures !(e.spec.dns.domainRef.Some? && e.spec.dns.domainRef.value.hcpRef.Some?) && e.lookups.infra.Some? ==>
      infra == e.lookups.infra.value
    ensures e.spec.serviceName != "" ==> v.kept.service == e.spec.serviceName
    ensures e.spec.serviceName == "" && e.spec.serviceRefName != "" ==> v.kept.service == e.spec.serviceRefName
    ensures e.spec.serviceName == "" && e.spec.serviceRefName == "" && e.spec.serviceLookup
            && e.lookups.endpointService.Some? ==>
      v.kept.service == e.lookups.endpointService.value
    ensures v.kept.service != ""
  {
    hide AllDone, Calm, Hopeful, AtMostOne, Witnessed, Accounted;
  }

  lemma KeyOf(infra: string)
    ensures ClusterKey(infra) == "kubernetes.io/cluster/" + infra
  {
    assert "kubernetes.io/cluster" + "/" + infra == "kubernetes.io/cluster/" + infra;
  }

  // ---- the security group ----

  /** The group: in the CR's VPC, with the CR's tags, with the rules of every entry of the spec. */
  lemma SettledGroup(e: Env, infra: string, v: View)
    requires Settled(e, infra, v) && |infra| + 1 + |e.name| <= 251
    ensures v.kept.group in v.groups
    ensures var g := v.groups[v.kept.group];
            && g.vpc == v.kept.vpc
            && g.tags.name == infra + "-" + e.name + "-sg" && "kubernetes.io/cluster/" + infra in g.tags.clusters
            && g.tags.operator && g.tags.managed
            && Groups.EntriesGranted(e.spec, v.kept.vpc, e.catalog, g.rules)
  {
    hide EndpointReady, DnsDone, Calm, Hopeful, EndpointsInv, Witnessed, Accounted, Groups.RulesMet,
         Groups.EntriesGranted;
    Naming.UncutNames(infra, e.name);
    KeyOf(infra);
    assert v.kept.(infra := infra) == v.kept;
    Groups.RulesMetIff(e.spec, v.kept, e.catalog, v.groups[v.kept.group]);
  }

  // ---- the endpoint ----

  /** The endpoint: available, in the CR's VPC, with the CR's tags, the CR's group and no other, and private DNS when
      that is asked for. */
  lemma SettledEndpoint(e: Env, infra: string, v: View)
    requires Settled(e, infra, v) && |infra| + 1 + |e.name| <= 251
    ensures v.kept.endpoint in v.endpoints
    ensures var x := v.endpoints[v.kept.endpoint];
            && x.state == Available && x.vpc == v.kept.vpc && x.groups == {v.kept.group}
            && x.tags.name == infra + "-" + e.name + "-vpce" && "kubernetes.io/cluster/" + infra in x.tags.clusters
            && x.tags.operator && (e.privateDns && e.spec.enablePrivateDns ==> x.privateDns)
  {
    hide GroupDone, DnsDone, Calm, Hopeful, Groups.GroupsInv, Witnessed, Accounted, WantedSubnets;
    Naming.UncutNames(infra, e.name);
    KeyOf(infra);
    assert v.kept.(infra := infra) == v.kept;
  }

  /** Its subnets: those of the spec, or of the discovered ones those that lie in the CR's VPC and in a zone of the
      service. Without VPC ids or VPC tags in the spec only the cluster's subnets are discovered. */
  lemma SettledSubnets(e: Env, infra: string, v: View, id: Id)
    requires Settled(e, infra, v) && DistinctIds(e.catalog.subnets) && v.kept.endpoint in v.endpoints
    ensures !e.spec.vpc.autoDiscover ==>
      (id in v.endpoints[v.kept.endpoint].subnets <==> id in e.spec.vpc.subnetIds)
    ensures e.spec.vpc.autoDiscover ==>
      var key := if e.spec.vpc.ids != [] || e.spec.vpc.tags != [] then "" else "kubernetes.io/cluster/" + infra;
      (id in v.endpoints[v.kept.endpoint].subnets <==>
        exists s :: s in e.catalog.subnets && s.id == id && s.vpc == v.kept.vpc
          && v.kept.service in e.catalog.serviceAzs && s.az in e.catalog.serviceAzs[v.kept.service]
          && Subnets.Candidate(s, key, e.spec.vpc.subnetTags)
          && ((exists p ::
                p in e.catalog.subnets && Subnets.Candidate(p, key, e.spec.vpc.subnetTags) && IsPrivate(p)) ==>
                IsPrivate(s)))
  {
    hide GroupDone, DnsDone, Calm, Hopeful, AtMostOne, Witnessed, Accounted, Discovered, UsableIds, Subnets.Candidate;
    var x := v.endpoints[v.kept.endpoint];
    KeyOf(infra);
    if e.spec.vpc.autoDiscover {
      var key := if e.spec.vpc.ids != [] || e.spec.vpc.tags != [] then "" else "kubernetes.io/cluster/" + infra;
      var found := Discovered(e.catalog.subnets, key, e.spec.vpc.subnetTags);
      DiscoveredDistinct(e.catalog.subnets, key, e.spec.vpc.subnetTags);
      UsableIdsAre(found, e.catalog.serviceAzs[v.kept.service], v.kept.vpc);
      forall s
        ensures s in found <==>
          && s in e.catalog.subnets && Subnets.Candidate(s, key, e.spec.vpc.subnetTags)
          && ((exists p ::
                p in e.catalog.subnets && Subnets.Candidate(p, key, e.spec.vpc.subnetTags) && IsPrivate(p)) ==>
                IsPrivate(s))
      {
        DiscoveredIff(s, e.catalog.subnets, key, e.spec.vpc.subnetTags);
      }
      assert x.subnets == SliceDiff.Elements(UsableIds(found, e.catalog.serviceAzs[v.kept.service], v.kept.vpc));
    }
  }

  lemma DiscoveredDistinct(subnets: seq<Subnet>, clusterTag: string, tags: seq<TagFilter>)
    requires DistinctIds(subnets)
    ensures DistinctIds(Discovered(subnets, clusterTag, tags))
  {
    hide Select, Matches;
    SelectKeepsDistinct(subnets, tags + [TagFilter(clusterTag, ""), TagFilter(PRIVATE_SUBNET_TAG_KEY, "")]);
    SelectKeepsDistinct(subnets, tags + [TagFilter(clusterTag, "")]);
  }

  // ---- the zone, the record and the service ----

  /** The zone: the VPC's zone of the cluster's name where it is discovered, the one of the spec where that has an id,
      and in any case one that exists; it is associated with every further VPC. */
  lemma SettledZone(e: Env, infra: string, v: View)
    requires Settled(e, infra, v) && !(e.privateDns && e.spec.enablePrivateDns)
    ensures v.kept.zone != NoZone && v.kept.zone.n in v.zones
    ensures var dns, z := e.spec.dns, v.zones[v.kept.zone.n];
      && (dns.autoDiscover ==>
            e.lookups.baseDomain.Some? && z.name == e.lookups.baseDomain.value + "." && v.kept.vpc in z.vpcs)
      && (!dns.autoDiscover && dns.zone != NO_ID ==> v.kept.zone.n == dns.zone)
      && (forall a | a in dns.associated :: a.vpc in z.vpcs)
      && (dns.hostname != "" && dns.externalName != "" ==> v.service == Some(v.kept.record) && v.kept.record != "")
  {
    hide GroupDone, EndpointReady, Calm, AtMostOne, Witnessed, Accounted, ParseHealthy, Offered;
    SettledIsHealthy(e, infra, v);
    var dns := e.spec.dns;
    forall a | a in dns.associated
      ensures a.vpc in VpcsOf(dns.associated)
    {
    }
  }

  /** The record, when the conditions were true before: the CNAME of the host name in the zone is the DNS name of the
      CR's endpoint, and it is what the service names. */
  lemma SettledRecord(e: Env, infra: string, v: View)
    requires Settled(e, infra, v) && !(e.privateDns && e.spec.enablePrivateDns)
    requires FastPath(e, v.kept.(infra := infra), v)
    requires v.kept.zone != NoZone && v.kept.zone.n in v.zones
    requires var name := v.zones[v.kept.zone.n].name;
             name != "" && name != "." && name[|name| - 1] == '.' && name[|name| - 2] != '.'
    ensures var z := v.zones[v.kept.zone.n];
            var key := RecordKey(e.spec.dns.hostname + "." + z.name, CNAME);
            && key in z.records && z.records[key] == EndpointDns(v.kept.endpoint)
            && v.kept.record + "." == e.spec.dns.hostname + "." + z.name
    // and a zone that was found or made for a domain has the operator's tags
    ensures !e.spec.dns.autoDiscover && e.spec.dns.zone == NO_ID
            && (e.spec.dns.domainName != "" || e.spec.dns.domainRef.Some?) ==>
      var t := v.zones[v.kept.zone.n].tags;
      t.operator && t.managed && "kubernetes.io/cluster/" + infra in t.clusters
  {
    hide GroupDone, EndpointReady, Calm, AtMostOne, Witnessed, Accounted, ParseHealthy, Offered, ZoneDone,
         AssociationsDone, ServiceDone;
    SettledRecordHolds(e, infra, v);
    KeyOf(infra);
    assert e.cluster == ClusterKey(infra);
    var name := v.zones[v.kept.zone.n].name;
    var host := e.spec.dns.hostname + "." + name[..|name| - 1];
    assert name == name[..|name| - 1] + "." && TrimDots(name) == name[..|name| - 1];
    assert v.kept.record == host && host[|host| - 1] != '.';
    assert host + "." == e.spec.dns.hostname + "." + name;
  }
}
