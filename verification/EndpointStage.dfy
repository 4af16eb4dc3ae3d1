/** validateVPCEndpoint: find or create the CR's endpoint, follow its state, attach subnets and group. */
module EndpointStage {
  import opened Aws
  import opened Kube
  import opened Reconciler
  import opened SliceDiff
  import opened Subnets

  /** At most one endpoint carries the CR's tags; it lies in the VPC recorded for the CR; a recorded id
      is either that endpoint or gone. */
  ghost predicate EndpointsInv(endpoint: Id, vpc: Id, endpoints: map<Id, Endpoint>, next: Id, name: string,
                               cluster: string) {
    && endpoint < next
    && (forall i | i in endpoints :: i < next)
    && (forall i, j | i in endpoints && j in endpoints && Owned(endpoints[i].tags, name, cluster)
          && Owned(endpoints[j].tags, name, cluster) :: i == j)
    && (forall i | i in endpoints && Owned(endpoints[i].tags, name, cluster) :: vpc != NO_ID && endpoints[i].vpc == vpc)
    && (endpoint in endpoints ==> Owned(endpoints[endpoint].tags, name, cluster))
  }

  ghost predicate NoneOwned(endpoints: map<Id, Endpoint>, name: string, cluster: string) {
    forall i | i in endpoints :: !Owned(endpoints[i].tags, name, cluster)
  }

  lemma EndpointCreated(endpoint: Id, vpc: Id, endpoints: map<Id, Endpoint>, next: Id, name: string, cluster: string,
                        e: Endpoint)
    requires EndpointsInv(endpoint, vpc, endpoints, next, name, cluster) && vpc != NO_ID
    requires NoneOwned(endpoints, name, cluster) && e.vpc == vpc && e.tags == DefaultTags(name, cluster)
    ensures EndpointsInv(endpoint, vpc, endpoints[next := e], next + 1, name, cluster)
    ensures EndpointsInv(next, vpc, endpoints[next := e], next + 1, name, cluster)
  {
  }

  /** Every endpoint keeps what it was made with, and a new one is made as the CR's status says: in its VPC, for its
      service, with its tags. */
  ghost predicate MadeForCr(m: map<Id, Endpoint>, m': map<Id, Endpoint>, next: Id, vpc: Id, service: string,
                            name: string, cluster: string)
  {
    forall i | i in m' ::
      if i in m then m'[i].vpc == m[i].vpc && m'[i].service == m[i].service && m'[i].tags == m[i].tags
      else i == next && m'[i].vpc == vpc && m'[i].service == service && m'[i].tags == Tags(name, {cluster}, true, true)
  }

  /** No endpoint is new, and none is another than before. */
  ghost predicate SameMaking(m: map<Id, Endpoint>, m': map<Id, Endpoint>) {
    forall i | i in m' :: i in m && m'[i].vpc == m[i].vpc && m'[i].service == m[i].service && m'[i].tags == m[i].tags
  }

  lemma EndpointFound(endpoint: Id, vpc: Id, endpoints: map<Id, Endpoint>, next: Id, name: string, cluster: string,
                      id: Id)
    requires EndpointsInv(endpoint, vpc, endpoints, next, name, cluster)
    requires id in endpoints && Owned(endpoints[id].tags, name, cluster)
    ensures EndpointsInv(id, vpc, endpoints, next, name, cluster)
  {
  }

  lemma EndpointUpdated(id: Id, vpc: Id, endpoints: map<Id, Endpoint>, next: Id, name: string, cluster: string,
                        e: Endpoint)
    requires EndpointsInv(id, vpc, endpoints, next, name, cluster) && id in endpoints
    requires e.vpc == endpoints[id].vpc && e.tags == endpoints[id].tags
    ensures EndpointsInv(id, vpc, endpoints[id := e], next, name, cluster)
  {
  }

  lemma EndpointRemoved(id: Id, vpc: Id, endpoints: map<Id, Endpoint>, next: Id, name: string, cluster: string)
    requires EndpointsInv(id, vpc, endpoints, next, name, cluster)
    ensures EndpointsInv(id, vpc, endpoints - {id}, next, name, cluster)
  {
  }

  /** The search by id and, failing that, by tags. */
  method SearchEndpoint(r: VpcEndpointReconciler) returns (res: Result<Option<Id>>)
    requires r.Parsed()
    modifies r.aws`budget
    ensures res.Ok? ==> r.aws.budget == old(r.aws.budget)
    ensures res.Err? ==> r.aws.budget < old(r.aws.budget)
    ensures res.Ok? && res.value.Some? ==> res.value.value in r.aws.endpoints
    ensures res.Ok? && res.value.Some? ==>
      if r.status.endpoint in r.aws.endpoints then res.value.value == r.status.endpoint
      else Owned(r.aws.endpoints[res.value.value].tags, EndpointName(r.status, r.vpce.name).value, r.clusterTag)
    ensures res.Ok? && res.value.None? ==>
      r.status.endpoint !in r.aws.endpoints
        && NoneOwned(r.aws.endpoints, EndpointName(r.status, r.vpce.name).value, r.clusterTag)
  {
    var found := r.aws.DescribeEndpoint(r.status.endpoint);
    if found.Err? {
      return Err(found.error);
    }
    if found.value.Some? {
      return Ok(Some(r.status.endpoint));
    }
    var name := EndpointName(r.status, r.vpce.name);
    if name.Err? {
      return Err(Unhealthy);
    }
    res := r.aws.FindEndpointByTags(r.clusterTag, name.value);
  }

  /** findOrCreateVpcEndpoint. Its result is always the id it has just recorded, so the caller's comparison
      with the recorded id never finds a change. */
  method FindOrCreateVpcEndpoint(r: VpcEndpointReconciler) returns (res: Result<Id>)
    requires r.Synced() && r.Parsed()
    modifies r`status, r.k8s`status, r.k8s`failedWrites, r.k8s`budget
    modifies r.aws`endpoints, r.aws`nextEndpoint, r.aws`mutations, r.aws`creations, r.aws`budget
    ensures r.aws.budget <= old(r.aws.budget)
      && Spent(old(r.k8s.budget), old(r.k8s.failedWrites), r.k8s.budget, r.k8s.failedWrites)
    ensures r.status == old(r.status).(endpoint := r.status.endpoint)
    ensures r.k8s.status == old(r.status).(endpoint := r.k8s.status.endpoint)
    ensures var n, c := EndpointName(r.status, r.vpce.name).value, r.clusterTag;
            EndpointsInv(old(r.status.endpoint), old(r.status.vpc), old(r.aws.endpoints), old(r.aws.nextEndpoint), n,
              c) ==>
            EndpointsInv(r.k8s.status.endpoint, r.k8s.status.vpc, r.aws.endpoints, r.aws.nextEndpoint, n, c)
    ensures res.Ok? ==> r.Synced() && res.value == r.status.endpoint && res.value in r.aws.endpoints
    ensures r.k8s.status == old(r.status) || r.k8s.status == r.status
    ensures old(r.status.endpoint) in old(r.aws.endpoints) ==> r.status.endpoint == old(r.status.endpoint)
    ensures r.k8s.status.endpoint != old(r.status.endpoint) ==> r.k8s.status.endpoint in r.aws.endpoints
    ensures r.k8s.status.endpoint != old(r.status.endpoint) && r.aws.creations == old(r.aws.creations) ==>
      Owned(r.aws.endpoints[r.k8s.status.endpoint].tags, EndpointName(r.status, r.vpce.name).value, r.clusterTag)
    ensures OthersAreFirstSeen(old(r.aws.endpoints), r.aws.endpoints, NO_ID, r.aws.catalog.firstState)
    // a new endpoint is for the service that is recorded
    ensures old(r.aws.nextEndpoint) <= r.aws.nextEndpoint
    ensures old(r.aws.nextEndpoint) !in old(r.aws.endpoints) ==>
      MadeForCr(old(r.aws.endpoints), r.aws.endpoints, old(r.aws.nextEndpoint), r.status.vpc, r.status.service,
                EndpointName(r.status, r.vpce.name).value, r.clusterTag)
    // an endpoint is created only when neither the id nor the tags find one
    ensures r.aws.creations == old(r.aws.creations) ==>
      r.aws.endpoints == old(r.aws.endpoints) && r.aws.mutations == old(r.aws.mutations)
        && r.aws.nextEndpoint == old(r.aws.nextEndpoint)
    ensures r.aws.creations != old(r.aws.creations) ==>
      && old(r.status.endpoint) !in old(r.aws.endpoints)
      && NoneOwned(old(r.aws.endpoints), EndpointName(r.status, r.vpce.name).value, r.clusterTag)
    ensures res.Ok? && r.aws.creations != old(r.aws.creations) ==>
      && r.aws.endpoints[res.value].state == r.aws.catalog.firstState && res.value == old(r.aws.nextEndpoint)
      && r.aws.nextEndpoint == old(r.aws.nextEndpoint) + 1
    ensures res.Err? ==> r.aws.budget < old(r.aws.budget) || r.k8s.budget < old(r.k8s.budget)
    // with every status write succeeding, an error leaves the persisted status alone
    ensures res.Err? && r.k8s.failedWrites == old(r.k8s.failedWrites) ==> r.k8s.status == old(r.k8s.status)
  {
    hide EndpointsInv;
    ghost var st, endpoints, next, n :=
      r.status, r.aws.endpoints, r.aws.nextEndpoint, EndpointName(r.status, r.vpce.name).value;
    ghost var inv := EndpointsInv(st.endpoint, st.vpc, endpoints, next, n, r.clusterTag);
    var found := SearchEndpoint(r);
    if found.Err? {
      return Err(found.error);
    }
    var id: Id;
    if found.value.None? {
      var name := EndpointName(r.status, r.vpce.name);
      if name.Err? {
        return Err(Unhealthy);
      }
      var created := r.aws.CreateEndpoint(name.value, r.status.vpc, r.status.service, r.clusterTag);
      if inv && r.aws.nextEndpoint != next {
        EndpointCreated(st.endpoint, st.vpc, endpoints, next, n, r.clusterTag, r.aws.endpoints[next]);
      }
      if created.Err? {
        return Err(created.error);
      }
      id := created.value;
    } else {
      id := found.value.value;
      if inv && id != st.endpoint {
        EndpointFound(st.endpoint, st.vpc, endpoints, next, n, r.clusterTag, id);
      }
    }
    r.status := r.status.(endpoint := id);
    var saved := r.SaveStatus();
    res := if saved.Err? then Err(saved.error) else Ok(id);
  }

  // ---- subnets and security groups of the endpoint ----

  /** The subnets the CR asks for; None when they cannot be determined. */
  function WantedSubnets(spec: Spec, service: string, vpc: Id, catalog: Catalog, cluster: string): Option<seq<Id>> {
    if !spec.vpc.autoDiscover then Some(spec.vpc.subnetIds)
    else
      var tag := if spec.vpc.ids != [] || spec.vpc.tags != [] then "" else cluster;
      var found := Discovered(catalog.subnets, tag, spec.vpc.subnetTags);
      if found == [] || service == "" || service !in catalog.serviceAzs then None
      else Some(UsableIds(found, catalog.serviceAzs[service], vpc))
  }

  predicate SubnetsHealthy(spec: Spec, service: string, vpc: Id, catalog: Catalog, cluster: string) {
    var wanted := WantedSubnets(spec, service, vpc, catalog, cluster);
    wanted.Some? && OnePerZone(Elements(wanted.value), catalog)
  }

  /** The expected subnet ids: discovered and usable ones, or the ones in the spec. */
  method ExpectedSubnets(r: VpcEndpointReconciler) returns (res: Result<seq<Id>>)
    requires r.Parsed()
    modifies r.aws`budget
    ensures res.Ok? ==>
      r.aws.budget == old(r.aws.budget)
        && WantedSubnets(r.vpce.spec, r.status.service, r.status.vpc, r.aws.catalog, r.clusterTag) == Some(res.value)
    ensures res.Err? ==>
      || r.aws.budget < old(r.aws.budget)
      || (r.aws.budget == old(r.aws.budget)
            && WantedSubnets(r.vpce.spec, r.status.service, r.status.vpc, r.aws.catalog, r.clusterTag).None?)
  {
    if !r.vpce.spec.vpc.autoDiscover {
      return Ok(r.vpce.spec.vpc.subnetIds);
    }
    var discovered;
    if |r.vpce.spec.vpc.ids| > 0 || |r.vpce.spec.vpc.tags| > 0 {
      discovered := AutodiscoverPrivateSubnets(r.aws, "", r.vpce.spec.vpc.subnetTags);
    } else {
      discovered := AutodiscoverPrivateSubnets(r.aws, r.clusterTag, r.vpce.spec.vpc.subnetTags);
    }
    if discovered.Err? {
      return Err(discovered.error);
    }
    var azs := r.aws.ServiceAzs(r.status.service);
    if azs.Err? {
      return Err(azs.error);
    }
    var ids := FilterUsable(discovered.value, azs.value, r.status.vpc);
    res := Ok(ids);
  }

  function WithSubnets(endpoints: map<Id, Endpoint>, id: Id, subnets: set<Id>): map<Id, Endpoint>
    requires id in endpoints
  {
    endpoints[id := endpoints[id].(subnets := subnets)]
  }

  function WithGroups(endpoints: map<Id, Endpoint>, id: Id, groups: set<Id>): map<Id, Endpoint>
    requires id in endpoints
  {
    endpoints[id := endpoints[id].(groups := groups)]
  }

  /** Remove what is not expected, then add what is missing. */
  method SwapSubnets(aws: AwsClient, id: Id, expected: seq<Id>) returns (res: Result<()>)
    requires id in aws.endpoints
    modifies aws`endpoints, aws`mutations, aws`budget
    ensures aws.budget <= old(aws.budget)
    ensures var now, want := old(aws.endpoints)[id].subnets, Elements(expected);
      && (|| aws.endpoints == old(aws.endpoints)
          || aws.endpoints == WithSubnets(old(aws.endpoints), id, now * want)
          || aws.endpoints == WithSubnets(old(aws.endpoints), id, want))
      && (res.Ok? ==> aws.budget == old(aws.budget) && aws.endpoints == WithSubnets(old(aws.endpoints), id, want))
      && (now == want ==> aws.mutations == old(aws.mutations) && aws.endpoints == old(aws.endpoints) && res.Ok?)
      && (OnePerZone(want, aws.catalog) && res.Err? ==> aws.budget < old(aws.budget))
      // from the removal on, each zone has at most one of the subnets, so AWS accepts both calls
      && (OnePerZone(want, aws.catalog) && aws.endpoints != old(aws.endpoints) ==>
            OnePerZone(aws.endpoints[id].subnets, aws.catalog))
  {
    ghost var endpoints, now, want := aws.endpoints, aws.endpoints[id].subnets, Elements(expected);
    var current := Enumerate(aws.endpoints[id].subnets);
    var toAdd, toRemove := TwoWayDiff(current, expected);
    assert Elements(toAdd) == want - now && Elements(toRemove) == now - want;
    assert (|toAdd| > 0 ==> toAdd[0] in want - now) && (|toRemove| > 0 ==> toRemove[0] in now - want);
    assert now - (now - want) == now * want && now * want + (want - now) == want;
    if OnePerZone(want, aws.catalog) {
      SubnetSwapKeepsZonesApart(now, want, aws.catalog);
    }
    if |toRemove| > 0 {
      assert now - Elements(toRemove) + {} == now * want;
      res := aws.ModifySubnets(id, {}, Elements(toRemove));
      if res.Err? {
        return;
      }
    } else {
      assert Elements(toRemove) == {};
      assert now == now * want;
    }
    assert aws.endpoints == WithSubnets(endpoints, id, now * want);
    if |toAdd| > 0 {
      assert aws.endpoints[id].subnets - {} + Elements(toAdd) == want;
      res := aws.ModifySubnets(id, Elements(toAdd), {});
    } else {
      assert Elements(toAdd) == {};
      assert now * want == want;
      res := Ok(());
    }
  }

  /** ensureVpcEndpointSecurityGroups: add the recorded group before removing any other, so that an
      endpoint that has a group is never without one. */
  method EnsureVpcEndpointSecurityGroups(aws: AwsClient, id: Id, group: Id) returns (res: Result<()>)
    requires id in aws.endpoints
    modifies aws`endpoints, aws`mutations, aws`budget
    ensures aws.budget <= old(aws.budget)
    ensures var now := old(aws.endpoints)[id].groups;
      && (|| aws.endpoints == old(aws.endpoints)
          || aws.endpoints == WithGroups(old(aws.endpoints), id, now + {group})
          || aws.endpoints == WithGroups(old(aws.endpoints), id, {group}))
      && (res.Ok? ==> aws.budget == old(aws.budget) && aws.endpoints == WithGroups(old(aws.endpoints), id, {group}))
      && (now == {group} ==> aws.mutations == old(aws.mutations) && aws.endpoints == old(aws.endpoints) && res.Ok?)
      && (res.Err? ==> aws.budget < old(aws.budget))
  {
    ghost var endpoints, now := aws.endpoints, aws.endpoints[id].groups;
    var current := Enumerate(aws.endpoints[id].groups);
    var toAdd, toRemove := TwoWayDiff(current, [group]);
    assert Elements(toAdd) == {group} - now && Elements(toRemove) == now - {group};
    assert (|toAdd| > 0 ==> toAdd[0] in {group} - now) && (|toRemove| > 0 ==> toRemove[0] in now - {group});
    if |toAdd| > 0 {
      assert now - {} + Elements(toAdd) == now + {group};
      res := aws.ModifyGroups(id, Elements(toAdd), {});
      if res.Err? {
        return;
      }
    } else {
      assert Elements(toAdd) == {};
      assert now + {group} == now;
    }
    assert aws.endpoints == WithGroups(endpoints, id, now + {group});
    if |toRemove| > 0 {
      assert now + {group} - Elements(toRemove) + {} == {group};
      res := aws.ModifyGroups(id, {}, Elements(toRemove));
    } else {
      assert Elements(toRemove) == {};
      assert now + {group} == {group};
      res := Ok(());
    }
  }

  // ---- the whole stage ----

  /** The persisted status once endpoint `id` was seen in `state`; `finished` when an available endpoint
      also got its subnets and group. */
  function SeenStatus(st: Status, id: Id, state: EndpointState, finished: bool): Status {
    match state
    case Available => if finished then st.(endpoint := id, endpointCond := CondTrue) else st.(endpoint := id)
    case Rejected => st.(endpoint := id)
    case _ => st.(endpoint := id, endpointCond := CondFalse, recordCond := Invalidate(st.recordCond),
      tagsCond := Invalidate(st.tagsCond))
  }

  /** The endpoint is recorded, available and has exactly its subnets and its group. */
  predicate EndpointDone(spec: Spec, st: Status, endpoints: map<Id, Endpoint>, catalog: Catalog, cluster: string,
                         privateDns: bool) {
    && st.endpoint in endpoints
    && st.endpointCond == CondTrue
    && endpoints[st.endpoint].state == Available
    && EndpointConfigured(spec, st.service, st.vpc, st.group, endpoints[st.endpoint], catalog, cluster, privateDns)
  }

  predicate EndpointConfigured(spec: Spec, service: string, vpc: Id, group: Id, e: Endpoint, catalog: Catalog,
                               cluster: string,
                               privateDns: bool)
  {
    && (privateDns && spec.enablePrivateDns ==> e.privateDns)
    && WantedSubnets(spec, service, vpc, catalog, cluster).Some?
    && e.subnets == Elements(WantedSubnets(spec, service, vpc, catalog, cluster).value)
    && e.groups == {group}
  }

  /** States in which only AWS or the service owner can move the endpoint on. */
  predicate Waiting(st: Status, endpoints: map<Id, Endpoint>) {
    st.endpoint in endpoints && endpoints[st.endpoint].state != Available && endpoints[st.endpoint].state != Rejected
  }

  /** Subnets, then groups, of an available endpoint. */
  method AttachEndpoint(r: VpcEndpointReconciler, id: Id) returns (res: Result<()>)
    requires r.Parsed() && id in r.aws.endpoints
    modifies r.aws`endpoints, r.aws`mutations, r.aws`budget
    ensures r.aws.budget <= old(r.aws.budget)
    ensures r.aws.endpoints.Keys == old(r.aws.endpoints).Keys
    ensures r.aws.endpoints == old(r.aws.endpoints)[id :=
      old(r.aws.endpoints)[id].(subnets := r.aws.endpoints[id].subnets, groups := r.aws.endpoints[id].groups)]
    ensures old(r.aws.endpoints)[id].groups != {} ==> r.aws.endpoints[id].groups != {}
    ensures res.Ok? ==>
      && r.aws.budget == old(r.aws.budget)
      && WantedSubnets(r.vpce.spec, r.status.service, r.status.vpc, r.aws.catalog, r.clusterTag).Some?
      && r.aws.endpoints[id].subnets ==
            Elements(WantedSubnets(r.vpce.spec, r.status.service, r.status.vpc, r.aws.catalog, r.clusterTag).value)
      && r.aws.endpoints[id].groups == {r.status.group}
    ensures
      var wanted, e :=
        WantedSubnets(r.vpce.spec, r.status.service, r.status.vpc, r.aws.catalog, r.clusterTag),
          old(r.aws.endpoints)[id];
      wanted.Some? && e.subnets == Elements(wanted.value) && e.groups == {r.status.group} ==>
        r.aws.endpoints == old(r.aws.endpoints) && r.aws.mutations == old(r.aws.mutations)
    ensures res.Err? && r.aws.budget == old(r.aws.budget) ==>
      !SubnetsHealthy(r.vpce.spec, r.status.service, r.status.vpc, r.aws.catalog, r.clusterTag)
  {
    hide WantedSubnets, OnePerZone;
    var expected := ExpectedSubnets(r);
    if expected.Err? {
      return Err(expected.error);
    }
    res := SwapSubnets(r.aws, id, expected.value);
    if res.Err? {
      return;
    }
    res := EnsureVpcEndpointSecurityGroups(r.aws, id, r.status.group);
  }

  /** The "available" branch: private DNS when asked for, then subnets and groups. */
  method ConfigureAvailable(r: VpcEndpointReconciler, id: Id) returns (res: Result<()>)
    requires r.Parsed() && id in r.aws.endpoints && id == r.status.endpoint
    modifies r.aws`endpoints, r.aws`mutations, r.aws`budget
    ensures r.aws.budget <= old(r.aws.budget)
    ensures r.aws.endpoints.Keys == old(r.aws.endpoints).Keys
    ensures r.aws.endpoints == old(r.aws.endpoints)[id := r.aws.endpoints[id]]
    ensures var was, e := old(r.aws.endpoints)[id], r.aws.endpoints[id];
            e == was.(subnets := e.subnets, groups := e.groups, privateDns := e.privateDns)
    ensures old(r.aws.endpoints)[id].groups != {} ==> r.aws.endpoints[id].groups != {}
    ensures res.Ok? ==>
      && r.aws.budget == old(r.aws.budget)
      && EndpointConfigured(r.vpce.spec, r.status.service, r.status.vpc, r.status.group, r.aws.endpoints[id],
            r.aws.catalog, r.clusterTag, r.enablePrivateDns)
    ensures EndpointConfigured(r.vpce.spec, r.status.service, r.status.vpc, r.status.group, old(r.aws.endpoints)[id],
      r.aws.catalog, r.clusterTag, r.enablePrivateDns) ==>
      r.aws.endpoints == old(r.aws.endpoints) && r.aws.mutations == old(r.aws.mutations)
    ensures res.Err? && r.aws.budget == old(r.aws.budget) ==>
      !SubnetsHealthy(r.vpce.spec, r.status.service, r.status.vpc, r.aws.catalog, r.clusterTag)
  {
    hide WantedSubnets, SubnetsHealthy;
    if r.enablePrivateDns && r.vpce.spec.enablePrivateDns && !r.aws.endpoints[id].privateDns {
      res := r.aws.EnablePrivateDns(id);
      if res.Err? {
        return;
      }
    }
    res := AttachEndpoint(r, id);
  }

  /** The conditions while the endpoint is not available. */
  function NotReady(st: Status): Status {
    st.(endpointCond := CondFalse, recordCond := Invalidate(st.recordCond), tagsCond := Invalidate(st.tagsCond))
  }

  ghost predicate NotFailed(id: Id, endpoints: map<Id, Endpoint>) {
    id in endpoints && endpoints[id].state != Failed && endpoints[id].state != Deleted
      && endpoints[id].state != Rejected
  }

  ghost predicate Unlisted(id: Id, endpoints: map<Id, Endpoint>) {
    id !in endpoints || endpoints[id].state == Deleted
  }

  lemma OneUpdated(m: map<Id, Endpoint>, m': map<Id, Endpoint>, id: Id)
    requires id in m && (m' == m - {id} || (id in m' && m' == m[id := m'[id]]))
    requires id in m' ==> m'[id].vpc == m[id].vpc && m'[id].service == m[id].service && m'[id].tags == m[id].tags
    ensures SameMaking(m, m')
  {
  }

  /** The switch over the endpoint's state. */
  method FollowState(r: VpcEndpointReconciler, id: Id) returns (res: Result<()>)
    requires r.Synced() && r.Parsed() && id in r.aws.endpoints && id == r.status.endpoint
    modifies r`status, r.k8s`status, r.k8s`failedWrites, r.k8s`budget
    modifies r.aws`endpoints, r.aws`mutations, r.aws`budget
    ensures r.aws.budget <= old(r.aws.budget)
      && Spent(old(r.k8s.budget), old(r.k8s.failedWrites), r.k8s.budget, r.k8s.failedWrites)
    ensures
      if id in r.aws.endpoints then
        var was, e := old(r.aws.endpoints)[id], r.aws.endpoints[id];
        && r.aws.endpoints == old(r.aws.endpoints)[id := e]
        && e == was.(subnets := e.subnets, groups := e.groups, privateDns := e.privateDns, state := e.state)
        && (e.state == was.state || (was.state == Rejected && e.state.Deleting?))
        && (was.groups != {} ==> e.groups != {})
      else
        && r.aws.endpoints == old(r.aws.endpoints) - {id}
        && old(r.aws.endpoints)[id].state == Rejected && r.aws.budget < old(r.aws.budget) && res.Err?
    ensures SameMaking(old(r.aws.endpoints), r.aws.endpoints)
    // a failed endpoint is an error, and so is one that has to be deleted, which invalidates the conditions in memory
    ensures res.Ok? ==> NotFailed(r.status.endpoint, r.aws.endpoints)
    ensures r.k8s.failedWrites == old(r.k8s.failedWrites) && old(r.aws.endpoints)[id].state != Available
            && old(r.aws.endpoints)[id].state != Rejected ==>
      r.k8s.status == old(r.status).(endpointCond := CondFalse,
        recordCond := if old(r.status.recordCond) == CondTrue then CondFalse else old(r.status.recordCond),
        tagsCond := if old(r.status.tagsCond) == CondTrue then CondFalse else old(r.status.tagsCond))
    ensures old(r.aws.endpoints)[id].state == Rejected ==>
      && res.Err? && (r.status.endpoint == id || (r.status.endpoint == NO_ID && Unlisted(id, r.aws.endpoints)))
      && r.status.recordCond == (if old(r.status.recordCond) == CondTrue then CondFalse else old(r.status.recordCond))
      && r.status.tagsCond == (if old(r.status.tagsCond) == CondTrue then CondFalse else old(r.status.tagsCond))
    ensures var state := old(r.aws.endpoints)[id].state;
            && (state != Available && state != Rejected ==>
                  r.aws.endpoints == old(r.aws.endpoints) && r.aws.mutations == old(r.aws.mutations))
    ensures r.k8s.status == old(r.status)
      || r.k8s.status == SeenStatus(old(r.status), id, old(r.aws.endpoints)[id].state, true)
    ensures r.k8s.failedWrites == old(r.k8s.failedWrites) ==>
      r.k8s.status == SeenStatus(old(r.status), id, old(r.aws.endpoints)[id].state, res.Ok?)
    ensures res.Ok? ==>
      && r.Synced() && r.Parsed()
      && (EndpointDone(r.vpce.spec, r.status, r.aws.endpoints, r.aws.catalog, r.clusterTag, r.enablePrivateDns)
            || Waiting(r.status, r.aws.endpoints))
    ensures EndpointDone(r.vpce.spec, old(r.status), old(r.aws.endpoints), r.aws.catalog, r.clusterTag,
      r.enablePrivateDns) ==>
      r.aws.endpoints == old(r.aws.endpoints) && r.aws.mutations == old(r.aws.mutations)
    ensures res.Err? && r.aws.budget == old(r.aws.budget) && r.k8s.budget == old(r.k8s.budget) ==>
      || Waiting(r.k8s.status, r.aws.endpoints)
      || !SubnetsHealthy(r.vpce.spec, r.k8s.status.service, r.k8s.status.vpc, r.aws.catalog, r.clusterTag)
  {
    hide SubnetsHealthy, EndpointConfigured, SameMaking;
    ghost var before := r.aws.endpoints;
    OneUpdated(before, before, id);
    match r.aws.endpoints[id].state {
      case Available =>
        res := ConfigureAvailable(r, id);
        OneUpdated(before, r.aws.endpoints, id);
        if res.Err? {
          return;
        }
        r.status := r.status.(endpointCond := CondTrue);
        res := r.SaveStatus();
      case Rejected =>
        r.status := r.status.(recordCond := Invalidate(r.status.recordCond), tagsCond := Invalidate(r.status.tagsCond));
        res := r.aws.DeleteEndpoint(id);
        OneUpdated(before, r.aws.endpoints, id);
        if res == Err(NotFound) {
          r.status := r.status.(endpoint := NO_ID);
        } else if res.Err? {
          return;
        }
        res := Err(Requeue);
      case PendingAcceptance =>
        r.status := NotReady(r.status);
        res := r.SaveStatus();
      case Pending | Deleting(_) =>
        r.status := NotReady(r.status);
        res := r.SaveStatus();
      case _ =>
        r.status := NotReady(r.status);
        res := r.SaveStatus();
        if res.Ok? {
          res := Err(Unhealthy);
        }
    }
  }

  /** Every endpoint but the recorded one is as it was, or has just been created. */
  ghost predicate OthersAreFirstSeen(m: map<Id, Endpoint>, m': map<Id, Endpoint>, recorded: Id, first: EndpointState) {
    forall i | i in m' && i != recorded :: (i in m && m'[i] == m[i]) || m'[i].state == first
  }

  lemma OthersStay(m: map<Id, Endpoint>, d: map<Id, Endpoint>, m': map<Id, Endpoint>, id: Id, first: EndpointState)
    requires OthersAreFirstSeen(m, d, NO_ID, first) && NO_ID !in m'
    requires m' == d - {id} || (id in m' && m' == d[id := m'[id]])
    ensures OthersAreFirstSeen(m, m', id, first)
  {
  }

  lemma AnyRecorded(m: map<Id, Endpoint>, m': map<Id, Endpoint>, recorded: Id, first: EndpointState)
    requires OthersAreFirstSeen(m, m', NO_ID, first) && NO_ID !in m'
    ensures OthersAreFirstSeen(m, m', recorded, first)
  {
  }

  lemma AfterFollowing(m: map<Id, Endpoint>, d: map<Id, Endpoint>, m': map<Id, Endpoint>, next: Id, next': Id, vpc: Id,
                       service: string, name: string, cluster: string, id: Id)
    requires id in d && SameMaking(d, m') && (m' == d - {id} || (id in m' && m' == d[id := m'[id]]))
    ensures MadeForCr(m, d, next, vpc, service, name, cluster) ==> MadeForCr(m, m', next, vpc, service, name, cluster)
    ensures EndpointsInv(id, vpc, d, next', name, cluster) ==> EndpointsInv(id, vpc, m', next', name, cluster)
  {
    hide EndpointsInv;
    if EndpointsInv(id, vpc, d, next', name, cluster) {
      if m' == d - {id} {
        EndpointRemoved(id, vpc, d, next', name, cluster);
      } else {
        EndpointUpdated(id, vpc, d, next', name, cluster, m'[id]);
      }
    }
  }

  /** validateVPCEndpoint. `seen` is the state in which the endpoint was first looked at. */
  method ValidateVPCEndpoint(r: VpcEndpointReconciler) returns (res: Result<()>, ghost seen: Option<EndpointState>)
    requires r.Synced() && r.Parsed()
    modifies r`status, r.k8s`status, r.k8s`failedWrites, r.k8s`budget
    modifies r.aws`endpoints, r.aws`nextEndpoint, r.aws`mutations, r.aws`creations, r.aws`budget
    ensures r.aws.budget <= old(r.aws.budget)
      && Spent(old(r.k8s.budget), old(r.k8s.failedWrites), r.k8s.budget, r.k8s.failedWrites)
    ensures var n, c := EndpointName(old(r.status), r.vpce.name).value, r.clusterTag;
            EndpointsInv(old(r.status.endpoint), old(r.status.vpc), old(r.aws.endpoints), old(r.aws.nextEndpoint), n,
              c) ==>
            EndpointsInv(r.k8s.status.endpoint, r.k8s.status.vpc, r.aws.endpoints, r.aws.nextEndpoint, n, c)
    ensures r.aws.creations != old(r.aws.creations) ==>
      && old(r.status.endpoint) !in old(r.aws.endpoints)
      && NoneOwned(old(r.aws.endpoints), EndpointName(old(r.status), r.vpce.name).value, r.clusterTag)
    ensures r.aws.creations == old(r.aws.creations) ==> r.aws.nextEndpoint == old(r.aws.nextEndpoint)
    ensures r.k8s.failedWrites == old(r.k8s.failedWrites) ==>
      OthersAreFirstSeen(old(r.aws.endpoints), r.aws.endpoints, r.k8s.status.endpoint, r.aws.catalog.firstState)
    ensures old(r.status.endpoint) in old(r.aws.endpoints) ==> r.k8s.status.endpoint == old(r.status.endpoint)
    ensures old(r.aws.nextEndpoint) <= r.aws.nextEndpoint
    ensures old(r.aws.nextEndpoint) !in old(r.aws.endpoints) ==>
      MadeForCr(old(r.aws.endpoints), r.aws.endpoints, old(r.aws.nextEndpoint), old(r.status.vpc),
                old(r.status.service), EndpointName(old(r.status), r.vpce.name).value, r.clusterTag)
    // the ids and conditions written
    ensures r.k8s.status == old(r.status).(endpoint := r.k8s.status.endpoint, endpointCond := r.k8s.status.endpointCond,
                                            recordCond := r.k8s.status.recordCond, tagsCond := r.k8s.status.tagsCond)
    ensures Lowered(old(r.status.recordCond), r.k8s.status.recordCond)
      && Lowered(old(r.status.tagsCond), r.k8s.status.tagsCond)
    ensures r.k8s.failedWrites == old(r.k8s.failedWrites) ==>
      r.k8s.status == if seen.None? then old(r.status)
        else SeenStatus(old(r.status), r.k8s.status.endpoint, seen.value, res.Ok?)
    // when they do not all succeed: neither of the two writes, only the first, or both
    ensures
      || r.k8s.status == old(r.status) || r.k8s.status == old(r.status).(endpoint := r.k8s.status.endpoint)
      || (seen.Some? && r.k8s.status == SeenStatus(old(r.status), r.k8s.status.endpoint, seen.value, true))
    ensures r.k8s.status.endpoint != old(r.status.endpoint) && r.aws.creations == old(r.aws.creations) ==>
      && r.k8s.status.endpoint in old(r.aws.endpoints)
      && Owned(old(r.aws.endpoints)[r.k8s.status.endpoint].tags, EndpointName(old(r.status), r.vpce.name).value,
            r.clusterTag)
    // where the state was seen
    ensures seen.Some? && old(r.status.endpoint) in old(r.aws.endpoints) ==>
      seen.value == old(r.aws.endpoints)[old(r.status.endpoint)].state
    ensures seen.Some? && r.k8s.failedWrites == old(r.k8s.failedWrites) ==>
      seen.value == if r.k8s.status.endpoint in old(r.aws.endpoints) && r.aws.creations == old(r.aws.creations)
                    then old(r.aws.endpoints)[r.k8s.status.endpoint].state else r.aws.catalog.firstState
    ensures res.Ok? ==>
      && r.Synced() && r.Parsed()
      && (EndpointDone(r.vpce.spec, r.status, r.aws.endpoints, r.aws.catalog, r.clusterTag, r.enablePrivateDns)
            || Waiting(r.status, r.aws.endpoints))
    ensures res.Ok? ==> NotFailed(r.status.endpoint, r.aws.endpoints)
    ensures r.aws.budget == old(r.aws.budget) && r.k8s.budget == old(r.k8s.budget) ==>
      && seen.Some? && r.k8s.status.endpoint in r.aws.endpoints
      && (r.aws.nextEndpoint == old(r.aws.nextEndpoint) ==>
            r.aws.creations == old(r.aws.creations) && r.k8s.status.endpoint in old(r.aws.endpoints))
    ensures seen.Some? && r.k8s.failedWrites == old(r.k8s.failedWrites) && r.k8s.status.endpoint in r.aws.endpoints ==>
      var state := r.aws.endpoints[r.k8s.status.endpoint].state;
      state == seen.value || (seen.value == Rejected && state.Deleting?)
    // a finished endpoint is left alone
    ensures EndpointDone(r.vpce.spec, old(r.status), old(r.aws.endpoints), r.aws.catalog, r.clusterTag,
      r.enablePrivateDns) ==>
      r.aws.endpoints == old(r.aws.endpoints) && r.aws.mutations == old(r.aws.mutations)
        && r.k8s.status == old(r.status)
    // without faults, an error means waiting or an impossible request
    ensures res.Err? && r.aws.budget == old(r.aws.budget) && r.k8s.budget == old(r.k8s.budget) ==>
      || Waiting(r.k8s.status, r.aws.endpoints)
      || !SubnetsHealthy(r.vpce.spec, r.k8s.status.service, r.k8s.status.vpc, r.aws.catalog, r.clusterTag)
  {
    hide EndpointsInv, SubnetsHealthy, EndpointConfigured, OthersAreFirstSeen, MadeForCr, SameMaking, NoneOwned, Owned,
         Waiting, WantedSubnets, NotFailed, Unlisted;
    ghost var before, next, service := r.aws.endpoints, r.aws.nextEndpoint, r.status.service;
    seen := None;
    ghost var n := EndpointName(r.status, r.vpce.name).value;
    var found := FindOrCreateVpcEndpoint(r);
    AnyRecorded(before, r.aws.endpoints, r.k8s.status.endpoint, r.aws.catalog.firstState);
    if found.Err? {
      return Err(found.error), seen;
    }
    var id := found.value;
    ghost var endpoints, vpc := r.aws.endpoints, r.status.vpc;
    seen := Some(endpoints[id].state);
    res := FollowState(r, id);
    OthersStay(before, endpoints, r.aws.endpoints, id, r.aws.catalog.firstState);
    AfterFollowing(before, endpoints, r.aws.endpoints, next, r.aws.nextEndpoint, vpc, service, n, r.clusterTag, id);
  }

  /** Discovered subnets lie in the CR's VPC and in a zone of the service, and no subnet is listed twice. */
  lemma WantedInVpc(spec: Spec, service: string, vpc: Id, catalog: Catalog, cluster: string)
    requires spec.vpc.autoDiscover && vpc != NO_ID
    requires DistinctIds(catalog.subnets)
    requires WantedSubnets(spec, service, vpc, catalog, cluster).Some?
    ensures var wanted := WantedSubnets(spec, service, vpc, catalog, cluster).value;
      && NoDuplicates(wanted)
      && forall x | x in wanted :: exists s ::
            s in catalog.subnets && s.id == x && s.vpc == vpc && s.az in catalog.serviceAzs[service]
  {
    hide Select, UsableIds, DistinctIds;
    var tag := if spec.vpc.ids != [] || spec.vpc.tags != [] then "" else cluster;
    SelectKeepsDistinct(catalog.subnets, spec.vpc.subnetTags
      + [TagFilter(tag, ""), TagFilter(PRIVATE_SUBNET_TAG_KEY, "")]);
    SelectKeepsDistinct(catalog.subnets, spec.vpc.subnetTags + [TagFilter(tag, "")]);
    UsableIdsAre(Discovered(catalog.subnets, tag, spec.vpc.subnetTags), catalog.serviceAzs[service], vpc);
  }
}
