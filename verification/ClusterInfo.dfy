/** parseClusterInfo: the infra id, the service name, the AWS client and the VPC a reconcile works with. */
module ClusterInfo {
  import opened Aws
  import opened Kube
  import opened Reconciler
  import opened SliceDiff
  import opened Subnets
  import opened VpcSelection
  import Naming

  /** Where the infra id comes from. */
  function InfraOf(dns: DnsSpec, l: Lookups): Option<string> {
    if IsHcp(dns) then l.hcpInfra else l.infra
  }

  function CurrentInfra(dns: DnsSpec, l: Lookups, recorded: string): string {
    if InfraOf(dns, l).Some? then InfraOf(dns, l).value else recorded
  }

  /** The service name a CR asks for; None when it cannot be read, "" when there is none. */
  function ServiceOf(spec: Spec, l: Lookups): Option<string> {
    if spec.serviceName != "" then Some(spec.serviceName)
    else if spec.serviceRefName != "" then Some(spec.serviceRefName)
    else if spec.serviceLookup then l.endpointService
    else Some("")
  }

  function Ids(subnets: seq<Subnet>): (ids: seq<Id>)
    ensures |ids| == |subnets|
  {
    seq(|subnets|, i requires 0 <= i < |subnets| => subnets[i].id)
  }

  function TaggedVpcs(catalog: Catalog, tags: seq<TagFilter>): set<Id> {
    set v | v in catalog.vpcs && HasTags(v, tags) :: v.id
  }

  predicate LeastLoaded(vpc: Id, vpcs: set<Id>, endpoints: map<Id, Endpoint>) {
    vpc in vpcs && forall v | v in vpcs :: Load(endpoints, vpc) <= Load(endpoints, v)
  }

  /** The VPC is one the spec allows: the least used of the tagged or listed ones, else the one the
      discovered or listed subnets are in. */
  predicate Allowed(vpc: Id, spec: VpcSpec, catalog: Catalog, endpoints: map<Id, Endpoint>, cluster: string) {
    if spec.tags != [] then LeastLoaded(vpc, TaggedVpcs(catalog, spec.tags), endpoints)
    else if spec.ids != [] then LeastLoaded(vpc, Elements(spec.ids), endpoints)
    else if spec.autoDiscover
      then VpcOf(catalog.subnets, Ids(Discovered(catalog.subnets, cluster, spec.subnetTags)), vpc)
    else VpcOf(catalog.subnets, spec.subnetIds, vpc)
  }

  /** The VPC has every tag of the spec, with its value. */
  ghost predicate Wanted(v: Vpc, tags: seq<TagFilter>) {
    forall i | 0 <= i < |tags| :: (tags[i].key, tags[i].value) in v.tags.Items
  }

  ghost function EndpointsIn(vpc: Id, endpoints: map<Id, Endpoint>): set<Id> {
    set i | i in endpoints && endpoints[i].vpc == vpc
  }

  lemma WantedIff(v: Vpc, tags: seq<TagFilter>)
    ensures Wanted(v, tags) <==> HasTags(v, tags)
  {
    if Wanted(v, tags) {
      forall t | t in tags
        ensures t.key in v.tags && v.tags[t.key] == t.value
      {
        var i :| 0 <= i < |tags| && tags[i] == t;
        assert (tags[i].key, tags[i].value) in v.tags.Items;
      }
    }
    if HasTags(v, tags) {
      forall i | 0 <= i < |tags|
        ensures (tags[i].key, tags[i].value) in v.tags.Items
      {
        assert tags[i] in tags;
      }
    }
  }

  /** What is allowed: where VPCs are asked for by tags, or by ids, one of those, and none of them has fewer endpoints;
      else the VPC of the discovered or of the listed subnets, of which there is one. */
  lemma AllowedMeans(vpc: Id, spec: VpcSpec, catalog: Catalog, endpoints: map<Id, Endpoint>, cluster: string)
    requires Allowed(vpc, spec, catalog, endpoints, cluster)
    ensures spec.tags != [] ==>
      && (exists v :: v in catalog.vpcs && v.id == vpc && Wanted(v, spec.tags))
      && forall v | v in catalog.vpcs && Wanted(v, spec.tags) ::
           |EndpointsIn(vpc, endpoints)| <= |EndpointsIn(v.id, endpoints)|
    ensures spec.tags == [] && spec.ids != [] ==>
      && vpc in spec.ids
      && forall v | v in spec.ids :: |EndpointsIn(vpc, endpoints)| <= |EndpointsIn(v, endpoints)|
    ensures spec.tags == [] && spec.ids == [] && spec.autoDiscover ==>
      forall s | s in catalog.subnets && Subnets.Candidate(s, cluster, spec.subnetTags)
                 && ((exists p ::
                       p in catalog.subnets && Subnets.Candidate(p, cluster, spec.subnetTags) && IsPrivate(p)) ==>
                       IsPrivate(s)) ::
        s.vpc == vpc
    ensures spec.tags == [] && spec.ids == [] && !spec.autoDiscover ==>
      && (exists s :: s in catalog.subnets && s.id in spec.subnetIds)
      && forall s | s in catalog.subnets && s.id in spec.subnetIds :: s.vpc == vpc
  {
    hide HasTags, Wanted, Discovered, Subnets.Candidate, IsPrivate;
    forall v
      ensures Wanted(v, spec.tags) <==> HasTags(v, spec.tags)
    {
      WantedIff(v, spec.tags);
    }
    forall v
      ensures EndpointsIn(v, endpoints) == InVpc(endpoints, v)
    {
    }
    if spec.tags != [] {
      var v :| v in catalog.vpcs && HasTags(v, spec.tags) && v.id == vpc;
      assert Wanted(v, spec.tags);
      forall u | u in catalog.vpcs && Wanted(u, spec.tags)
        ensures |EndpointsIn(vpc, endpoints)| <= |EndpointsIn(u.id, endpoints)|
      {
        assert u.id in TaggedVpcs(catalog, spec.tags);
      }
    } else if spec.ids != [] {
      forall u | u in spec.ids
        ensures |EndpointsIn(vpc, endpoints)| <= |EndpointsIn(u, endpoints)|
      {
        assert u in Elements(spec.ids);
      }
    } else if spec.autoDiscover {
      var found := Discovered(catalog.subnets, cluster, spec.subnetTags);
      forall s | s in catalog.subnets
        ensures s in found ==> s.vpc == vpc
        ensures s in found <==>
          && Subnets.Candidate(s, cluster, spec.subnetTags)
          && ((exists p :: p in catalog.subnets && Subnets.Candidate(p, cluster, spec.subnetTags) && IsPrivate(p)) ==>
                IsPrivate(s))
      {
        DiscoveredIff(s, catalog.subnets, cluster, spec.subnetTags);
        VpcOfMeans(catalog.subnets, Ids(found), vpc);
        if s in found {
          var i :| 0 <= i < |found| && found[i] == s;
          assert Ids(found)[i] == s.id;
        }
      }
    } else {
      VpcOfMeans(catalog.subnets, spec.subnetIds, vpc);
    }
  }

  /** There is a VPC to choose. */
  ghost predicate Choosable(spec: VpcSpec, catalog: Catalog, cluster: string) {
    if spec.tags != [] then exists v :: v in catalog.vpcs && HasTags(v, spec.tags)
    else if spec.ids != [] then NO_ID !in spec.ids
    else if spec.autoDiscover then
      var found := Discovered(catalog.subnets, cluster, spec.subnetTags);
      found != [] && OneVpc(catalog.subnets, Ids(found))
    else OneVpc(catalog.subnets, spec.subnetIds)
  }

  method ChooseVpc(aws: AwsClient, spec: VpcSpec, cluster: string) returns (res: Result<RealId>)
    modifies aws`budget
    ensures aws.budget <= old(aws.budget)
    ensures res.Ok? ==> aws.budget == old(aws.budget) && Allowed(res.value, spec, aws.catalog, aws.endpoints, cluster)
    ensures res.Err? && aws.budget == old(aws.budget) ==> !Choosable(spec, aws.catalog, cluster)
  {
    hide OneVpc, Discovered, HasTags, VpcOf, Load;
    if |spec.tags| > 0 {
      var ids := FilterVpcIdsByTags(aws, spec.tags);
      if ids.Err? {
        return Err(ids.error);
      }
      res := SelectVPCForVPCEndpoint(aws, ids.value);
      assert forall x :: x in ids.value <==> x in TaggedVpcs(aws.catalog, spec.tags);
    } else if |spec.ids| > 0 {
      res := SelectVPCForVPCEndpoint(aws, spec.ids);
    } else if spec.autoDiscover {
      var found := AutodiscoverPrivateSubnets(aws, cluster, spec.subnetTags);
      if found.Err? {
        return Err(found.error);
      }
      var subnets: seq<Id> := [];
      for i := 0 to |found.value|
        invariant subnets == Ids(found.value)[..i]
      {
        subnets := subnets + [found.value[i].id];
      }
      assert subnets == Ids(found.value);
      res := GetVPCId(aws, subnets);
    } else {
      res := GetVPCId(aws, spec.subnetIds);
    }
  }

  /** getVpcEndpointServiceName. */
  method GetVpcEndpointServiceName(r: VpcEndpointReconciler) returns (res: Result<()>)
    requires r.Synced()
    modifies r`status, r.k8s`status, r.k8s`failedWrites, r.k8s`budget
    ensures Spent(old(r.k8s.budget), old(r.k8s.failedWrites), r.k8s.budget, r.k8s.failedWrites)
    ensures r.status == old(r.status).(service := r.status.service)
    ensures r.k8s.status == old(r.status) || r.k8s.status == r.status
    ensures res.Ok? ==> r.Synced() && r.status.service != ""
    ensures res.Ok? && r.k8s.budget == old(r.k8s.budget) && ServiceOf(r.vpce.spec, r.k8s.lookups).Some? ==>
      ServiceOf(r.vpce.spec, r.k8s.lookups).value == r.status.service
    ensures r.status.service == old(r.status.service) || ServiceOf(r.vpce.spec, r.k8s.lookups) == Some(r.status.service)
    ensures res.Err? && r.k8s.budget == old(r.k8s.budget) ==>
      !ServiceReadable(r.vpce.spec, r.k8s.lookups, old(r.status.service))
  {
    var name := "";
    if r.vpce.spec.serviceName != "" {
      name := r.vpce.spec.serviceName;
    } else if r.vpce.spec.serviceRefName != "" {
      name := r.vpce.spec.serviceRefName;
    } else if r.vpce.spec.serviceLookup {
      var read := r.k8s.Read(r.k8s.lookups.endpointService);
      if read.Err? {
        // the service may be deleted before the CR
        return if r.status.service == "" then Err(read.error) else Ok(());
      }
      name := read.value;
    }
    if name == "" {
      return Err(Unhealthy);
    }
    r.status := r.status.(service := name);
    res := r.SaveStatus();
  }

  predicate ServiceReadable(spec: Spec, l: Lookups, recorded: string) {
    match ServiceOf(spec, l)
    case None => recorded != ""
    case Some(name) => name != ""
  }

  /** The infra id, read afresh, or the one recorded when it cannot be read. */
  method RefreshInfra(r: VpcEndpointReconciler) returns (res: Result<()>)
    requires r.Synced()
    modifies r`status, r.k8s`status, r.k8s`failedWrites, r.k8s`budget
    ensures Spent(old(r.k8s.budget), old(r.k8s.failedWrites), r.k8s.budget, r.k8s.failedWrites)
    ensures r.status == old(r.status).(infra := r.status.infra)
    ensures r.k8s.status == old(r.status) || r.k8s.status == r.status
    ensures res.Ok? ==> r.Synced()
    ensures r.status.infra == old(r.status.infra) || InfraOf(r.vpce.spec.dns, r.k8s.lookups) == Some(r.status.infra)
    ensures r.k8s.budget == old(r.k8s.budget) ==>
      r.status.infra == CurrentInfra(r.vpce.spec.dns, r.k8s.lookups, old(r.status.infra))
    ensures res.Err? && r.k8s.budget == old(r.k8s.budget) ==> r.status.infra == ""
  {
    var read;
    if IsHcp(r.vpce.spec.dns) {
      read := r.k8s.Read(r.k8s.lookups.hcpInfra);
    } else {
      read := r.k8s.Read(r.k8s.lookups.infra);
    }
    if read.Err? {
      return if r.status.infra == "" then Err(read.error) else Ok(());
    }
    r.status := r.status.(infra := read.value);
    res := r.SaveStatus();
  }

  /** The region and the credentials for the AWS client. */
  method SetUpClient(r: VpcEndpointReconciler) returns (res: Result<()>)
    modifies r`clientReady, r.k8s`budget
    ensures Spent(old(r.k8s.budget), old(r.k8s.failedWrites), r.k8s.budget, r.k8s.failedWrites)
    ensures res.Ok? ==>
      r.k8s.budget == old(r.k8s.budget) && r.clientReady && ClientAvailable(r.vpce.spec, r.k8s.lookups)
    ensures res.Err? ==> r.clientReady == old(r.clientReady)
    ensures res.Err? && r.k8s.budget == old(r.k8s.budget) ==> !ClientAvailable(r.vpce.spec, r.k8s.lookups)
  {
    if r.vpce.spec.region == "" {
      var region := r.k8s.Read(r.k8s.lookups.region);
      if region.Err? {
        return Err(region.error);
      }
    }
    res := ReadCredentials(r.k8s, r.vpce.spec.overrideSecret);
    if res.Ok? {
      r.clientReady := true;
    }
  }

  /** ParseAWSCredentialOverride, or the controller's own credentials. */
  method ReadCredentials(k8s: ApiServer, overrideSecret: Option<string>) returns (res: Result<()>)
    modifies k8s`budget
    ensures k8s.budget <= old(k8s.budget)
    ensures res.Ok? ==> k8s.budget == old(k8s.budget) && CredentialsAvailable(overrideSecret, k8s.lookups)
    ensures res.Err? && k8s.budget == old(k8s.budget) ==> !CredentialsAvailable(overrideSecret, k8s.lookups)
  {
    if overrideSecret.Some? {
      res := k8s.Read(if overrideSecret.value in k8s.lookups.secrets then Some(()) else None);
    } else {
      res := k8s.Read(if k8s.lookups.credentials then Some(()) else None);
    }
  }

  predicate CredentialsAvailable(overrideSecret: Option<string>, l: Lookups) {
    if overrideSecret.Some? then overrideSecret.value in l.secrets else l.credentials
  }

  predicate ClientAvailable(spec: Spec, l: Lookups) {
    (spec.region == "" ==> l.region.Some?) && CredentialsAvailable(spec.overrideSecret, l)
  }

  /** Everything parseClusterInfo reads is there. */
  ghost predicate ParseHealthy(spec: Spec, st: Status, l: Lookups, catalog: Catalog) {
    var infra := CurrentInfra(spec.dns, l, st.infra);
    && infra != ""
    && ServiceReadable(spec, l, st.service)
    && ClientAvailable(spec, l)
    && (st.vpc == NO_ID ==> Choosable(spec.vpc, catalog, Naming.LEGACY_CLUSTER_TAG_PREFIX + "/" + infra))
  }

  /** Some of what parseClusterInfo fills in. */
  predicate InputsFilled(spec: Spec, l: Lookups, st: Status, st': Status) {
    && (st'.infra == st.infra || InfraOf(spec.dns, l) == Some(st'.infra))
    && (st'.service == st.service || ServiceOf(spec, l) == Some(st'.service))
    // the VPC is written at most once
    && (st.vpc != NO_ID ==> st'.vpc == st.vpc)
  }

  predicate Filled(spec: Spec, l: Lookups, st: Status, st': Status) {
    st' == st.(infra := st'.infra, service := st'.service, vpc := st'.vpc) && InputsFilled(spec, l, st, st')
  }

  /** Filling in cannot make unreadable what could be read. */
  lemma ParseHealthyFilled(spec: Spec, st: Status, st': Status, l: Lookups, catalog: Catalog)
    requires ParseHealthy(spec, st, l, catalog) && InputsFilled(spec, l, st, st')
    ensures ParseHealthy(spec, st', l, catalog)
  {
    hide Choosable, ServiceOf, InfraOf;
  }

  /** parseClusterInfo. */
  method ParseClusterInfo(r: VpcEndpointReconciler) returns (res: Result<()>)
    requires r.Synced()
    modifies r`status, r`clusterTag, r`clientReady, r.k8s`status, r.k8s`failedWrites, r.k8s`budget, r.aws`budget
    ensures r.aws.budget <= old(r.aws.budget)
      && Spent(old(r.k8s.budget), old(r.k8s.failedWrites), r.k8s.budget, r.k8s.failedWrites)
    ensures Filled(r.vpce.spec, r.k8s.lookups, old(r.status), r.status)
    ensures Filled(r.vpce.spec, r.k8s.lookups, old(r.status), r.k8s.status)
    ensures res.Ok? ==> r.Synced() && r.Parsed() && r.status.service != ""
    ensures res.Ok? ==> r.clientReady && ClientAvailable(r.vpce.spec, r.k8s.lookups)
    // a client is set up only with a region and credentials that could be read
    ensures r.clientReady ==> old(r.clientReady) || ClientAvailable(r.vpce.spec, r.k8s.lookups)
    ensures res.Ok? && r.k8s.budget == old(r.k8s.budget) && ServiceOf(r.vpce.spec, r.k8s.lookups).Some? ==>
      ServiceOf(r.vpce.spec, r.k8s.lookups).value == r.status.service
    ensures r.status.vpc != old(r.status.vpc) ==>
      Allowed(r.status.vpc, r.vpce.spec.vpc, r.aws.catalog, r.aws.endpoints, r.clusterTag)
    ensures r.k8s.status.vpc == old(r.status.vpc) || r.k8s.status.vpc == r.status.vpc
    ensures res.Err? && r.aws.budget == old(r.aws.budget) && r.k8s.budget == old(r.k8s.budget) ==>
      !ParseHealthy(r.vpce.spec, old(r.status), r.k8s.lookups, r.aws.catalog)
  {
    hide Allowed, Choosable, ServiceReadable, ClientAvailable, ServiceOf, InfraOf, CurrentInfra;
    r.clusterTag := "";
    res := RefreshInfra(r);
    if res.Err? {
      return;
    }
    var tag := Naming.GetClusterLegacyTagKey(r.status.infra);
    if tag.Err? {
      return Err(tag.error);
    }
    r.clusterTag := tag.value;
    res := GetVpcEndpointServiceName(r);
    if res.Err? {
      return;
    }
    res := SetUpClient(r);
    if res.Err? || r.status.vpc != NO_ID {
      return;
    }
    var vpc := ChooseVpc(r.aws, r.vpce.spec.vpc, r.clusterTag);
    if vpc.Err? {
      return Err(vpc.error);
    }
    r.status := r.status.(vpc := vpc.value);
    res := r.SaveStatus();
  }
}
