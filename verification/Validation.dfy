/** validateResources: the three validations of a CR that is not being deleted, one after the other. */
module Validation {
  import opened Aws
  import opened Kube
  import opened Reconciler
  import opened HostedZoneCache
  import opened DnsStage
  import opened EndpointStage
  import Groups = SecurityGroupStage
  import Rules
  import opened Subnets
  import SliceDiff
  import Naming

  /** The Name tags of the CR's two resources. */
  function GroupTag(e: Env, st: Status): string {
    var name := GroupName(st, e.name);
    if name.Ok? then name.value else ""
  }

  function EndpointTag(e: Env, st: Status): string {
    var name := EndpointName(st, e.name);
    if name.Ok? then name.value else ""
  }

  /** At most one group and one endpoint carry the CR's tags; both lie in the recorded VPC; a recorded
      id that exists is theirs. */
  ghost predicate AtMostOne(e: Env, st: Status, v: View) {
    && Groups.GroupsInv(st.group, st.vpc, v.groups, v.nextGroup, GroupTag(e, st), e.cluster)
    && EndpointsInv(st.endpoint, st.vpc, v.endpoints, v.nextEndpoint, EndpointTag(e, st), e.cluster)
  }

  predicate GroupDone(e: Env, st: Status, groups: map<Id, Group>) {
    st.groupCond == CondTrue && Groups.GroupDone(e.spec, st, groups, e.catalog, GroupTag(e, st), e.cluster)
  }

  predicate EndpointReady(e: Env, st: Status, endpoints: map<Id, Endpoint>) {
    EndpointDone(e.spec, st, endpoints, e.catalog, e.cluster, e.privateDns)
  }

  /** Nothing is left to do for the CR. */
  predicate AllDone(e: Env, st: Status, v: View) {
    && GroupDone(e, st, v.groups)
    && EndpointReady(e, st, v.endpoints)
    && (PrivateDnsActive(e) || DnsDone(e.spec.dns, st, v.zones, v.service, e.lookups))
  }

  // ---- healthy surroundings ----

  /** The VPC's CIDR is known when it is used and no rule is asked for twice. */
  ghost predicate RulesHealthy(spec: Spec, vpc: Id, catalog: Catalog) {
    && (spec.useVpcCidr ==> vpc in catalog.cidrs)
    && var src := Rules.Sources(spec.useVpcCidr, if spec.useVpcCidr && vpc in catalog.cidrs then catalog.cidrs[vpc]
          else "", catalog.nodeGroups);
       NoDuplicates(Rules.Desired(spec.ingress, false, src)) && NoDuplicates(Rules.Desired(spec.egress, true, src))
  }

  lemma RulesHealthyIsGroupHealthy(spec: Spec, st: Status, groups: map<Id, Group>, catalog: Catalog)
    ensures RulesHealthy(spec, st.vpc, catalog) ==> Groups.GroupHealthy(spec, st, groups, catalog)
  {
    if RulesHealthy(spec, st.vpc, catalog) && st.group in groups {
      var src, rules := Groups.SourcesOf(spec, st, catalog), groups[st.group].rules;
      Rules.RequestIsAcceptable(Rules.Desired(spec.ingress, false, src), rules);
      Rules.RequestIsAcceptable(Rules.Desired(spec.egress, true, src), rules);
    }
  }

  /** There are subnets for the endpoint, at most one in each zone. */
  predicate EndpointHealthy(e: Env, st: Status) {
    && SubnetsHealthy(e.spec, st.service, st.vpc, e.catalog, e.cluster)
    && WantedSubnets(e.spec, st.service, st.vpc, e.catalog, e.cluster).value != []
  }

  /** What a CR with these inputs in its status needs from AWS and the cluster. */
  ghost predicate Healthy(e: Env, st: Status, zones: map<Id, Zone>) {
    && e.cluster != ""
    && RulesHealthy(e.spec, st.vpc, e.catalog)
    && EndpointHealthy(e, st)
    && (PrivateDnsActive(e) ||
        (ZoneHealthy(e.spec.dns, st, zones, e.lookups) && DistinctVpcs(e.spec.dns.associated)
         && forall a | a in e.spec.dns.associated :: a.secret in e.lookups.secrets))
  }

  /** What of this is not the state of the recorded zone. */
  ghost predicate Offered(e: Env, st: Status, zones: map<Id, Zone>) {
    && e.cluster != ""
    && RulesHealthy(e.spec, st.vpc, e.catalog)
    && EndpointHealthy(e, st)
    && (PrivateDnsActive(e) ||
        (ZoneOffered(e.spec.dns, st, zones, e.lookups) && DistinctVpcs(e.spec.dns.associated)
         && forall a | a in e.spec.dns.associated :: a.secret in e.lookups.secrets))
  }

  /** The recorded zone cannot be used, and that matters. */
  predicate Stuck(e: Env, st: Status, zones: map<Id, Zone>) {
    !PrivateDnsActive(e) && ZoneStuck(e.spec.dns, st.zone, zones)
  }

  lemma HealthyIff(e: Env, st: Status, zones: map<Id, Zone>)
    ensures Healthy(e, st, zones) <==> Offered(e, st, zones) && !Stuck(e, st, zones)
  {
    hide RulesHealthy, EndpointHealthy, DistinctVpcs, ZoneHealthy, ZoneOffered, ZoneStuck;
    ZoneHealthyIff(e.spec.dns, st, zones, e.lookups);
  }

  lemma StuckIsUndone(e: Env, st: Status, v: View)
    requires Stuck(e, st, v.zones)
    ensures !AllDone(e, st, v)
  {
    hide GroupDone, EndpointReady, BelowZoneDone;
    StuckIsNotDone(e.spec.dns, st, v.zones, e.lookups);
  }

  /** The conditions that the CR's mode does not maintain. */
  predicate CondsFollow(e: Env, st: Status, st': Status) {
    && (PrivateDnsActive(e) || ModeOf(e.spec.dns) != ByDomain ==> Lowered(st.tagsCond, st'.tagsCond))
    && (PrivateDnsActive(e) ==> Lowered(st.recordCond, st'.recordCond))
  }

  // ---- the security group ----

  /** AWS rejects what the spec asks for: the recorded group lacks a rule that is asked for twice. */
  predicate RulesRefused(e: Env, st: Status, groups: map<Id, Group>) {
    st.vpc != NO_ID && Groups.Refused(e.spec, st, groups, e.catalog)
  }

  /** What validateSecurityGroup promises. */
  ghost predicate GroupRel(e: Env, v: View, w: View, ok: bool) {
    var st := v.status;
    && w == v.(status := w.status, kept := w.kept, groups := w.groups, nextGroup := w.nextGroup,
               mutations := w.mutations,
               creations := w.creations, awsBudget := w.awsBudget, failedWrites := w.failedWrites,
                 k8sBudget := w.k8sBudget)
    && Spends(v, w)
    && w.kept == st.(group := w.kept.group, groupCond := w.kept.groupCond) && NoZone !in w.cache
    && (Groups.GroupsInv(st.group, st.vpc, v.groups, v.nextGroup, GroupTag(e, st), e.cluster) ==>
          Groups.GroupsInv(w.kept.group, w.kept.vpc, w.groups, w.nextGroup, GroupTag(e, st), e.cluster))
    && (ok ==>
          w.kept == w.status && GroupDone(e, w.status, w.groups) && (st.group in v.groups ==> w.kept.group == st.group))
    && (GroupDone(e, st, v.groups) ==> w.groups == v.groups && w.mutations == v.mutations && w.kept == st)
    && (NoFaults(v, w) && !ok && RulesHealthy(e.spec, st.vpc, e.catalog) ==>
          st.group !in v.groups && w.kept.group in w.groups)
    && (RulesRefused(e, st, v.groups) ==> !ok && w.kept.group == st.group && RulesRefused(e, w.kept, w.groups))
  }

  method ValidateGroup(r: VpcEndpointReconciler) returns (res: Result<()>)
    requires r.Synced() && r.Parsed()
    modifies r`status, r.k8s`status, r.k8s`failedWrites, r.k8s`budget
    modifies r.aws`groups, r.aws`nextGroup, r.aws`mutations, r.aws`creations, r.aws`budget
    ensures GroupRel(r.EnvOf(), old(r.ViewOf()), r.ViewOf(), res.Ok?)
    ensures res.Ok? ==> r.Synced() && r.Parsed()
  {
    hide Groups.GroupsInv, Groups.GroupDone, RulesHealthy, Groups.Configured, Groups.GroupHealthy, Groups.SourcesOf,
         Groups.Refused, Naming.GetClusterLegacyTagKey;
    res := Groups.ValidateSecurityGroup(r);
    RulesHealthyIsGroupHealthy(r.vpce.spec, r.k8s.status, r.aws.groups, r.aws.catalog);
  }

  // ---- the endpoint ----

  predicate SettledState(state: EndpointState) {
    state == Available || state == Rejected
  }

  /** An endpoint that the CR has not recorded yet is not going to be first seen as available or rejected. */
  ghost predicate FirstSeenUnsettled(e: Env, v: View) {
    && !SettledState(e.catalog.firstState)
    && forall i | i in v.endpoints && i != v.status.endpoint
          && Owned(v.endpoints[i].tags, EndpointTag(e, v.status), e.cluster) ::
         !SettledState(v.endpoints[i].state)
  }

  /** For the record condition to go on meaning what it says when the recorded endpoint is gone: status writes
      succeed, and the endpoint that replaces it is first seen unsettled. */
  ghost predicate EndpointUndisturbed(e: Env, v: View, w: View) {
    v.status.recordCond == CondTrue && v.status.endpoint !in v.endpoints ==>
      w.failedWrites == v.failedWrites && FirstSeenUnsettled(e, v)
  }

  /** A rejected endpoint may be on its way out; any other state is not for the operator to change. */
  predicate StateKept(was: EndpointState, now: EndpointState) {
    now == was || (was == Rejected && now.Deleting?)
  }

  /** Which endpoint is recorded after a pass without faults, and its state. */
  ghost predicate StateFollows(e: Env, v: View, w: View) {
    var id, st := w.kept.endpoint, v.status;
    && id in w.endpoints
    && if w.nextEndpoint == v.nextEndpoint then
         && id in v.endpoints && StateKept(v.endpoints[id].state, w.endpoints[id].state)
         && (id == st.endpoint || Owned(v.endpoints[id].tags, EndpointTag(e, st), e.cluster))
       else
         && st.endpoint !in v.endpoints && NoneOwned(v.endpoints, EndpointTag(e, st), e.cluster)
         && StateKept(e.catalog.firstState, w.endpoints[id].state)
  }

  /** A new endpoint is made in the VPC and for the service that the status records; the others stay what they are. */
  ghost predicate EndpointsMade(e: Env, v: View, w: View) {
    && v.nextEndpoint <= w.nextEndpoint
    && (v.nextEndpoint !in v.endpoints ==>
          MadeForCr(v.endpoints, w.endpoints, v.nextEndpoint, w.kept.vpc, w.kept.service, EndpointTag(e, v.status),
                    e.cluster))
  }

  /** What validateVPCEndpoint promises about the endpoint and the fields it writes. */
  ghost predicate EndpointCore(e: Env, v: View, w: View, ok: bool) {
    var st := v.status;
    && w == v.(status := w.status, kept := w.kept, endpoints := w.endpoints, nextEndpoint := w.nextEndpoint,
               mutations := w.mutations,
               creations := w.creations, awsBudget := w.awsBudget, failedWrites := w.failedWrites,
                 k8sBudget := w.k8sBudget)
    && Spends(v, w)
    && w.kept == st.(endpoint := w.kept.endpoint, endpointCond := w.kept.endpointCond, recordCond := w.kept.recordCond,
                     tagsCond := w.kept.tagsCond)
    && Lowered(st.recordCond, w.kept.recordCond) && Lowered(st.tagsCond, w.kept.tagsCond) && NoZone !in w.cache
    && (EndpointsInv(st.endpoint, st.vpc, v.endpoints, v.nextEndpoint, EndpointTag(e, st), e.cluster) ==>
          EndpointsInv(w.kept.endpoint, w.kept.vpc, w.endpoints, w.nextEndpoint, EndpointTag(e, st), e.cluster))
    && EndpointsMade(e, v, w)
    && (ok ==> NotFailed(w.kept.endpoint, w.endpoints))
    && (ok ==> w.kept == w.status && (EndpointReady(e, w.status, w.endpoints) || Waiting(w.status, w.endpoints)))
    && (EndpointReady(e, st, v.endpoints) ==> w.endpoints == v.endpoints && w.mutations == v.mutations && w.kept == st)
    && (NoFaults(v, w) && !ok && SubnetsHealthy(e.spec, st.service, st.vpc, e.catalog, e.cluster) ==>
          Waiting(w.kept, w.endpoints))
  }

  /** Moreover it records the right endpoint, and a True record condition goes on meaning what it says. */
  ghost predicate EndpointRel(e: Env, v: View, w: View, ok: bool) {
    && EndpointCore(e, v, w, ok)
    && (NoFaults(v, w) ==> StateFollows(e, v, w))
    && (EndpointUndisturbed(e, v, w) && RecordTrue(v.status, v.zones) ==> RecordTrue(w.kept, v.zones))
    && (w.failedWrites == v.failedWrites && FirstSeenUnsettled(e, v) ==> FirstSeenUnsettled(e, w.(status := w.kept)))
  }

  /** The record condition and the recorded endpoint after the endpoint was seen, or was not. */
  ghost predicate SeenFrom(e: Env, v: View, w: View, ok: bool, seen: Option<EndpointState>) {
    var st, id := v.status, w.kept.endpoint;
    && (st.endpoint in v.endpoints ==> id == st.endpoint)
    && (w.failedWrites == v.failedWrites ==> w.kept == if seen.None? then st else SeenStatus(st, id, seen.value, ok))
    && (w.failedWrites == v.failedWrites && seen.Some? ==>
          && seen.value ==
                (if id in v.endpoints && w.creations == v.creations then v.endpoints[id].state
                  else e.catalog.firstState)
          && (id in w.endpoints ==> StateKept(seen.value, w.endpoints[id].state)))
    && (NoFaults(v, w) ==> seen.Some? && id in w.endpoints)
    && (id != st.endpoint && w.creations == v.creations ==>
          id in v.endpoints && Owned(v.endpoints[id].tags, EndpointTag(e, st), e.cluster))
    && (w.creations != v.creations ==>
          st.endpoint !in v.endpoints && NoneOwned(v.endpoints, EndpointTag(e, st), e.cluster))
    && (NoFaults(v, w) && w.nextEndpoint == v.nextEndpoint ==> w.creations == v.creations && id in v.endpoints)
    && (w.creations == v.creations ==> w.nextEndpoint == v.nextEndpoint)
    && (w.failedWrites == v.failedWrites ==> OthersAreFirstSeen(v.endpoints, w.endpoints, id, e.catalog.firstState))
  }

  lemma SeenState(e: Env, v: View, w: View, ok: bool, seen: Option<EndpointState>)
    requires SeenFrom(e, v, w, ok, seen) && NoFaults(v, w) && w.failedWrites == v.failedWrites
    ensures StateFollows(e, v, w)
  {
    hide EndpointTag;
  }

  lemma SeenOthers(e: Env, v: View, w: View, ok: bool, seen: Option<EndpointState>)
    requires SeenFrom(e, v, w, ok, seen) && w.failedWrites == v.failedWrites && FirstSeenUnsettled(e, v)
    requires w.kept.infra == v.status.infra
    ensures FirstSeenUnsettled(e, w.(status := w.kept))
  {
    hide SeenStatus, Naming.GenerateName;
  }

  lemma SeenRecord(e: Env, v: View, w: View, ok: bool, seen: Option<EndpointState>)
    requires SeenFrom(e, v, w, ok, seen) && EndpointUndisturbed(e, v, w) && RecordTrue(v.status, v.zones)
    requires w.kept == v.status.(endpoint := w.kept.endpoint, endpointCond := w.kept.endpointCond,
                                 recordCond := w.kept.recordCond, tagsCond := w.kept.tagsCond)
    requires Lowered(v.status.recordCond, w.kept.recordCond)
    ensures RecordTrue(w.kept, v.zones)
  {
    hide EndpointTag;
  }

  lemma SeenIsEndpointRel(e: Env, v: View, w: View, ok: bool, seen: Option<EndpointState>)
    requires EndpointCore(e, v, w, ok) && SeenFrom(e, v, w, ok, seen)
    ensures EndpointRel(e, v, w, ok)
  {
    hide SeenFrom, EndpointsInv, EndpointReady, StateFollows, EndpointUndisturbed, FirstSeenUnsettled, SubnetsHealthy,
         EndpointTag, Waiting;
    if NoFaults(v, w) {
      SeenState(e, v, w, ok, seen);
    }
    if EndpointUndisturbed(e, v, w) && RecordTrue(v.status, v.zones) {
      SeenRecord(e, v, w, ok, seen);
    }
    if w.failedWrites == v.failedWrites && FirstSeenUnsettled(e, v) {
      SeenOthers(e, v, w, ok, seen);
    }
  }

  method SeeEndpoint(r: VpcEndpointReconciler) returns (res: Result<()>, ghost seen: Option<EndpointState>)
    requires r.Synced() && r.Parsed()
    modifies r`status, r.k8s`status, r.k8s`failedWrites, r.k8s`budget
    modifies r.aws`endpoints, r.aws`nextEndpoint, r.aws`mutations, r.aws`creations, r.aws`budget
    ensures EndpointCore(r.EnvOf(), old(r.ViewOf()), r.ViewOf(), res.Ok?)
    ensures SeenFrom(r.EnvOf(), old(r.ViewOf()), r.ViewOf(), res.Ok?, seen)
    ensures res.Ok? ==> r.Synced() && r.Parsed()
  {
    hide EndpointsInv, EndpointConfigured, SubnetsHealthy, OthersAreFirstSeen, NoneOwned, Owned, SeenStatus,
         Lowered, MadeForCr, EndpointDone, NotFailed;
    res, seen := ValidateVPCEndpoint(r);
  }

  method ValidateEndpoint(r: VpcEndpointReconciler) returns (res: Result<()>)
    requires r.Synced() && r.Parsed()
    modifies r`status, r.k8s`status, r.k8s`failedWrites, r.k8s`budget
    modifies r.aws`endpoints, r.aws`nextEndpoint, r.aws`mutations, r.aws`creations, r.aws`budget
    ensures EndpointRel(r.EnvOf(), old(r.ViewOf()), r.ViewOf(), res.Ok?)
    ensures res.Ok? ==> r.Synced() && r.Parsed()
  {
    hide VpcEndpointReconciler.ViewOf, EndpointCore, SeenFrom, EndpointRel, Naming.GetClusterLegacyTagKey;
    ghost var e, v := r.EnvOf(), r.ViewOf();
    ghost var seen;
    res, seen := SeeEndpoint(r);
    SeenIsEndpointRel(e, v, r.ViewOf(), res.Ok?, seen);
  }

  // ---- all of them ----

  /** The recorded group did not exist and does now. */
  predicate GroupAppeared(v: View, w: View) {
    v.status.group !in v.groups && w.kept.group in w.groups
  }

  /** The endpoint is undisturbed, and the recorded zone is the one the CR's mode settles on. */
  ghost predicate RecordUndisturbed(e: Env, v: View, w: View) {
    && EndpointUndisturbed(e, v, w) && ZoneIds(v.zones, v.nextZone)
    && (v.status.recordCond == CondTrue ==> ZonePinned(e.spec.dns, v.status, v.zones, e.lookups))
  }

  /** Record and tags condition mean what they say, and the next pass can rely on it. */
  ghost predicate FastPath(e: Env, st: Status, v: View) {
    && RecordTrue(st, v.zones) && RecordAsked(e.spec.dns, st, v.zones) && TagsTrue(e.spec.dns, e.cluster, st, v.zones)
    && CacheKnown(e, v)
    && FirstSeenUnsettled(e, v.(status := st))
    && ChoiceHolds(e.spec.dns, st, v.zones, e.lookups)
  }

  /** No endpoint was created, recorded or changed. */
  predicate EndpointUntouched(v: View, w: View) {
    w.endpoints == v.endpoints && w.nextEndpoint == v.nextEndpoint && w.kept.endpoint == v.status.endpoint
  }

  /** Without a mode, nobody looks at a zone whose record was once written. */
  predicate Forgotten(dns: DnsSpec, st: Status) {
    ModeOf(dns) == NoDns && st.recordCond == CondTrue && dns.associated == []
  }

  ghost predicate Calm(e: Env, st: Status, v: View) {
    DnsCalm(e.spec.dns, st, v.zones, v.nextZone, v.cache, e.now)
  }

  /** What a pass over the three validations promises, wherever it stops. */
  ghost predicate PassRel(e: Env, v: View, w: View, ok: bool) {
    var dns, st := e.spec.dns, v.status;
    && Spends(v, w)
    && SameInputs(st, w.kept) && (ok ==> w.kept == w.status) && NoZone !in w.cache
    // safety
    && (AtMostOne(e, st, v) ==> AtMostOne(e, w.kept, w))
    && (RecordNamed(st) ==> RecordNamed(w.kept))
    && (Spelled(st.zone, BareMode(dns, st.zone)) ==> Spelled(w.kept.zone, BareMode(dns, w.kept.zone)))
    && (Stuck(e, st, v.zones) ==>
          w.kept.zone == st.zone && w.zones.Keys == v.zones.Keys && NoNewRecord(dns, st, w.kept))
    && CondsFollow(e, st, w.kept)
    && v.nextZone <= w.nextZone && (ZoneIds(v.zones, v.nextZone) ==> ZoneHistory(e, v, w))
    && (ZoneIds(v.zones, v.nextZone) ==> ZoneIds(w.zones, w.nextZone))
    && (Witnessed(v.cache, v.answers) ==> Witnessed(w.cache, w.answers)) && (CacheKnown(e, v) ==> CacheKnown(e, w))
    && (RecordUndisturbed(e, v, w) && RecordTrue(st, v.zones) ==> RecordTrue(w.kept, w.zones))
    && (w.failedWrites == v.failedWrites && FastPath(e, st, v) && st.vpc != NO_ID ==> FastPath(e, w.kept, w))
    // quiescence; a right cache stays right unless AWS carries out an association in a call that fails
    && (Calm(e, st, v) && w.lost == v.lost ==> Calm(e, w.kept, w))
    && (Calm(e, st, v) && AllDone(e, st, v) ==>
          && w.mutations == v.mutations && w.serviceWrites == v.serviceWrites
          && (NoFaults(v, w) ==> w.kept == st))
    // convergence
    && (NoFaults(v, w) && Calm(e, st, v) && Healthy(e, st, v.zones) ==>
          && Healthy(e, w.kept, w.zones) && w.kept.group in w.groups
          && (GroupAppeared(v, w) || Waiting(w.kept, w.endpoints) || AllDone(e, w.kept, w)))
    && (NoFaults(v, w) && st.group in v.groups && RulesHealthy(e.spec, st.vpc, e.catalog) ==> StateFollows(e, v, w))
    && (NoFaults(v, w) ==> StateFollows(e, v, w) || EndpointUntouched(v, w))
    && EndpointsMade(e, v, w)
    && (w.k8sBudget == v.k8sBudget ==> ServiceFollows(v, w))
    && (RulesRefused(e, st, v.groups) ==> !ok && w.kept.group == st.group && RulesRefused(e, w.kept, w.groups))
    // success
    && (ok ==> NotFailed(w.kept.endpoint, w.endpoints))
    && (Calm(e, st, v) && ok && Stuck(e, st, v.zones) ==> Forgotten(dns, st))
    && (NoFaults(v, w) && Calm(e, st, v) && Healthy(e, st, v.zones) && AllDone(e, st, v) ==> ok)
  }

  lemma GroupDoneFollows(e: Env, st: Status, st': Status, groups: map<Id, Group>)
    requires SameInputs(st, st') && st'.group == st.group
    ensures st'.groupCond == st.groupCond ==> GroupDone(e, st, groups) == GroupDone(e, st', groups)
    ensures GroupTag(e, st) == GroupTag(e, st') && EndpointTag(e, st) == EndpointTag(e, st')
  {
  }

  lemma DoneGroupExists(e: Env, st: Status, groups: map<Id, Group>)
    requires GroupDone(e, st, groups)
    ensures st.group in groups
  {
  }

  lemma EndpointReadyFollows(e: Env, st: Status, st': Status, endpoints: map<Id, Endpoint>)
    requires SameInputs(st, st') && st'.group == st.group && st'.endpoint == st.endpoint
      && st'.endpointCond == st.endpointCond
    ensures EndpointReady(e, st, endpoints) == EndpointReady(e, st', endpoints)
  {
  }

  lemma HealthyFollows(e: Env, st: Status, st': Status, zones: map<Id, Zone>)
    requires SameInputs(st, st') && st'.zone == st.zone && Healthy(e, st, zones)
    ensures Healthy(e, st', zones)
  {
  }

  /** A zone that was settled on goes on being there. */
  lemma HealthyAfterDns(e: Env, st: Status, st': Status, zones: map<Id, Zone>, zones': map<Id, Zone>)
    requires SameInputs(st, st') && Healthy(e, st, zones)
      && (PrivateDnsActive(e) || ZoneDone(e.spec.dns, st', zones', e.lookups))
    ensures Healthy(e, st', zones')
  {
    hide RulesHealthy, SubnetsHealthy, WantedSubnets;
  }

  lemma CalmFollows(e: Env, st: Status, st': Status, v: View, w: View)
    requires Calm(e, st, v) && w.zones == v.zones && w.nextZone == v.nextZone && w.cache == v.cache
    requires st'.zone == st.zone && (st'.recordCond == CondTrue ==> st.recordCond == CondTrue)
      && st'.record == st.record
    ensures Calm(e, st', w)
  {
  }

  /** The security group is no concern of the record. */
  lemma FastPathFollows(e: Env, st: Status, st': Status, v: View, w: View)
    requires FastPath(e, st, v) && w.zones == v.zones && w.nextZone == v.nextZone && w.endpoints == v.endpoints
    requires w.cache == v.cache && w.unseen == v.unseen
    requires st' == st.(group := st'.group, groupCond := st'.groupCond)
    ensures FastPath(e, st', w)
  {
    hide Naming.GenerateName;
  }

  /** Nor does the endpoint stage touch the zones. */
  lemma FastPathAfterEndpoint(e: Env, v: View, w: View, ok: bool)
    requires EndpointRel(e, v, w, ok) && FastPath(e, v.status, v) && w.failedWrites == v.failedWrites
    ensures FastPath(e, w.kept, w)
  {
    hide EndpointReady, EndpointsInv, StateFollows, SubnetsHealthy, Waiting, RecordTrue, Explained, EndpointTag,
         RecordName;
    assert v.(status := v.status) == v;
  }

  lemma FastPathAfterDns(e: Env, n: View, w: View, ok: bool)
    requires DnsStep(e, n, w, ok) && FastPath(e, n.status, n) && n.kept == n.status && n.status.vpc != NO_ID
    ensures FastPath(e, w.kept, w)
  {
    hide DnsProgress, RecordTrue, Explained, Witnessed, MayCreateZone, ZonePinned, OneClusterZone, Naming.GenerateName,
         RecordName, RecordAsked, TagsTrue;
  }

  lemma GroupIsPass(e: Env, v: View, w: View)
    requires GroupRel(e, v, w, false)
    ensures PassRel(e, v, w, false)
  {
    hide GroupDone, EndpointReady, Groups.GroupsInv, EndpointsInv, DnsDone, ZonePinned, DnsCalm, Witnessed, ZoneIds,
         RulesHealthy, EndpointHealthy;
    hide FirstSeenUnsettled, StateFollows, Healthy, FastPath, RulesRefused, Naming.GenerateName;
    if Calm(e, v.status, v) {
      CalmFollows(e, v.status, w.kept, v, w);
    }
    if FastPath(e, v.status, v) {
      FastPathFollows(e, v.status, w.kept, v, w);
    }
    if Healthy(e, v.status, v.zones) {
      HealthyMeans(e, v.status, v.zones);
      HealthyFollows(e, v.status, w.kept, v.zones);
    }
  }

  lemma EndpointIsPass(e: Env, v: View, m: View, w: View)
    requires GroupRel(e, v, m, true) && EndpointRel(e, m, w, false)
    ensures PassRel(e, v, w, false)
  {
    hide GroupDone, Groups.GroupsInv, EndpointsInv, DnsDone, ZonePinned, DnsCalm, Witnessed, ZoneIds, RulesHealthy,
         SubnetsHealthy, WantedSubnets;
    hide EndpointConfigured, FastPath, RulesRefused, Spelled, DomainOf, NoZoneServes, Naming.GenerateName;
    GroupDoneFollows(e, m.status, w.kept, w.groups);
    DoneGroupExists(e, m.status, m.groups);
    if w.failedWrites == v.failedWrites && FastPath(e, v.status, v) {
      FastPathFollows(e, v.status, m.status, v, m);
      FastPathAfterEndpoint(e, m, w, false);
    }
    if GroupDone(e, v.status, v.groups) {
      DoneGroupExists(e, v.status, v.groups);
      EndpointReadyFollows(e, v.status, m.status, v.endpoints);
    }
    if Calm(e, v.status, v) {
      CalmFollows(e, v.status, w.kept, v, w);
    }
    if Healthy(e, v.status, v.zones) {
      HealthyFollows(e, v.status, w.kept, v.zones);
    }
  }

  /** An endpoint with all its subnets has a DNS name, so the DNS stage has what it needs. */
  lemma ReadyForDns(e: Env, v: View, n: View)
    requires EndpointReady(e, n.status, n.endpoints) && Healthy(e, v.status, v.zones) && !PrivateDnsActive(e)
    requires SameInputs(v.status, n.status) && n.status.zone == v.status.zone && n.zones == v.zones
    ensures DnsHealthy(e.spec.dns, n.status, n.zones, n.endpoints, e.lookups)
  {
    hide Discovered, RulesHealthy;
    var wanted := WantedSubnets(e.spec, n.status.service, n.status.vpc, e.catalog, e.cluster).value;
    assert wanted[0] in SliceDiff.Elements(wanted);
  }

  lemma PinnedFollows(dns: DnsSpec, st: Status, st': Status, zones: map<Id, Zone>, l: Lookups)
    requires st'.zone == st.zone && st'.vpc == st.vpc
    ensures ZonePinned(dns, st, zones, l) == ZonePinned(dns, st', zones, l)
  {
  }

  lemma DnsDoneFollows(e: Env, st: Status, st': Status, v: View)
    requires st' == st.(group := st'.group, groupCond := st'.groupCond)
    ensures DnsDone(e.spec.dns, st, v.zones, v.service, e.lookups) ==
      DnsDone(e.spec.dns, st', v.zones, v.service, e.lookups)
  {
  }

  /** What happened before the DNS stage. */
  ghost predicate BeforeDns(e: Env, v: View, m: View, n: View) {
    GroupRel(e, v, m, true) && EndpointRel(e, m, n, true)
  }

  /** What the DNS stage changes. */
  ghost predicate DnsStep(e: Env, n: View, w: View, ok: bool) {
    && w == n.(status := w.status, kept := w.kept, zones := w.zones, nextZone := w.nextZone, cache := w.cache,
               unseen := w.unseen, answers := w.answers, lost := w.lost,
               service := w.service, mutations := w.mutations, creations := w.creations,
               serviceWrites := w.serviceWrites,
               awsBudget := w.awsBudget, failedWrites := w.failedWrites, k8sBudget := w.k8sBudget)
    && NoZone !in w.cache
    && if PrivateDnsActive(e) then ok && w == n else DnsRel(e, n, w, ok)
  }

  lemma SafeThroughDns(e: Env, v: View, m: View, n: View, w: View, ok: bool)
    requires BeforeDns(e, v, m, n) && DnsStep(e, n, w, ok)
    ensures Spends(v, w) && NoZone !in w.cache
    ensures SameInputs(v.status, w.kept) && w.kept.group == n.status.group && w.kept.endpoint == n.status.endpoint
    ensures ok ==> w.kept == w.status
    ensures w.kept.group in w.groups
    ensures !RulesRefused(e, v.status, v.groups) && EndpointsMade(e, v, w)
    ensures NotFailed(w.kept.endpoint, w.endpoints)
    ensures CacheKnown(e, v) ==> CacheKnown(e, w)
    ensures w.k8sBudget == v.k8sBudget ==> ServiceFollows(v, w)
    ensures AtMostOne(e, v.status, v) ==> AtMostOne(e, w.kept, w)
    ensures RecordNamed(v.status) ==> RecordNamed(w.kept)
    ensures Spelled(v.status.zone, BareMode(e.spec.dns, v.status.zone)) ==>
      Spelled(w.kept.zone, BareMode(e.spec.dns, w.kept.zone))
    ensures Stuck(e, v.status, v.zones) ==>
      w.kept.zone == v.status.zone && w.zones.Keys == v.zones.Keys && NoNewRecord(e.spec.dns, v.status, w.kept)
    ensures CondsFollow(e, v.status, w.kept)
    ensures v.nextZone <= w.nextZone && (ZoneIds(v.zones, v.nextZone) ==> ZoneHistory(e, v, w))
    ensures ZoneIds(v.zones, v.nextZone) ==> ZoneIds(w.zones, w.nextZone)
    ensures Witnessed(v.cache, v.answers) ==> Witnessed(w.cache, w.answers)
    ensures RecordUndisturbed(e, v, w) && RecordTrue(v.status, v.zones) ==> RecordTrue(w.kept, w.zones)
    ensures w.failedWrites == v.failedWrites && FastPath(e, v.status, v) && v.status.vpc != NO_ID ==>
      FastPath(e, w.kept, w)
  {
    hide GroupDone, EndpointReady, Groups.GroupsInv, EndpointsInv, DnsDone, ZonePinned, DnsCalm, Witnessed, ZoneIds,
         RulesHealthy, SubnetsHealthy;
    hide StateFollows, DnsProgress, MayCreateZone, FastPath, RulesRefused, Naming.GenerateName;
    PinnedFollows(e.spec.dns, v.status, n.status, v.zones, e.lookups);
    DoneGroupExists(e, m.status, m.groups);
    if w.failedWrites == v.failedWrites && FastPath(e, v.status, v) && v.status.vpc != NO_ID {
      FastPathFollows(e, v.status, m.status, v, m);
      FastPathAfterEndpoint(e, m, n, true);
      FastPathAfterDns(e, n, w, ok);
    }
  }

  lemma QuietThroughDns(e: Env, v: View, m: View, n: View, w: View, ok: bool)
    requires BeforeDns(e, v, m, n) && DnsStep(e, n, w, ok) && Calm(e, v.status, v)
    ensures Calm(e, n.status, n)
    ensures w.lost == v.lost ==> Calm(e, w.kept, w)
    ensures AllDone(e, v.status, v) ==> w.mutations == v.mutations && w.serviceWrites == v.serviceWrites
    ensures AllDone(e, v.status, v) && NoFaults(v, w) ==> w.kept == v.status
  {
    hide GroupDone, EndpointReady, Groups.GroupsInv, EndpointsInv, DnsDone, ZonePinned, DnsCalm, Witnessed, ZoneIds,
         RulesHealthy, SubnetsHealthy;
    hide StateFollows, MayCreateZone, RecordTrue, DnsHealthy, FirstSeenUnsettled, Naming.GenerateName;
    CalmFollows(e, v.status, n.status, v, n);
    if PrivateDnsActive(e) {
      CalmFollows(e, n.status, w.kept, n, w);
    }
    if GroupDone(e, v.status, v.groups) {
      DoneGroupExists(e, v.status, v.groups);
      EndpointReadyFollows(e, v.status, m.status, v.endpoints);
      DnsDoneFollows(e, v.status, m.status, v);
    }
  }

  lemma DoneThroughDns(e: Env, v: View, m: View, n: View, w: View, ok: bool)
    requires BeforeDns(e, v, m, n) && DnsStep(e, n, w, ok) && Calm(e, n.status, n)
    requires NoFaults(v, w) && Healthy(e, v.status, v.zones)
    requires SameInputs(v.status, w.kept) && w.kept.group == n.status.group && w.kept.endpoint == n.status.endpoint
    ensures Healthy(e, w.kept, w.zones)
    ensures Waiting(w.kept, w.endpoints) || AllDone(e, w.kept, w)
  {
    hide GroupDone, EndpointReady, Groups.GroupsInv, EndpointsInv, DnsDone, ZonePinned, DnsCalm, Witnessed, ZoneIds,
         RulesHealthy, SubnetsHealthy;
    hide StateFollows, MayCreateZone, RecordTrue, DnsHealthy, FirstSeenUnsettled, Healthy, Naming.GenerateName;
    GroupDoneFollows(e, m.status, w.kept, w.groups);
    HealthyMeans(e, v.status, v.zones);
    if PrivateDnsActive(e) {
      HealthyAfterDns(e, v.status, w.kept, v.zones, w.zones);
    } else {
      PinnedHealth(e, v.status, n.status, v.zones);
      HealthyAfterDns(e, v.status, w.kept, v.zones, w.zones);
    }
    if EndpointReady(e, n.status, n.endpoints) {
      EndpointReadyFollows(e, n.status, w.kept, w.endpoints);
      if !PrivateDnsActive(e) {
        ReadyForDns(e, v, n);
      }
    }
  }

  lemma HealthyMeans(e: Env, st: Status, zones: map<Id, Zone>)
    requires Healthy(e, st, zones)
    ensures RulesHealthy(e.spec, st.vpc, e.catalog) && e.cluster != ""
      && (PrivateDnsActive(e) || ZoneHealthy(e.spec.dns, st, zones, e.lookups))
  {
  }

  lemma PinnedHealth(e: Env, st: Status, st': Status, zones: map<Id, Zone>)
    requires st'.zone == st.zone && st'.vpc == st.vpc
    ensures ZoneHealthy(e.spec.dns, st, zones, e.lookups) == ZoneHealthy(e.spec.dns, st', zones, e.lookups)
  {
  }

  lemma DnsIsPass(e: Env, v: View, m: View, n: View, w: View, ok: bool)
    requires BeforeDns(e, v, m, n) && DnsStep(e, n, w, ok)
    ensures PassRel(e, v, w, ok)
  {
    hide BeforeDns, DnsStep, AllDone, AtMostOne, Healthy, Calm, Witnessed, ZoneIds, RulesHealthy, Waiting,
         RecordUndisturbed, StateFollows;
    hide RecordTrue, RecordNamed, Spelled, BareMode, SameInputs, FastPath, CondsFollow, ZoneHistory, Forgotten, Stuck,
         RulesRefused;
    SafeThroughDns(e, v, m, n, w, ok);
    ProgressThroughDns(e, v, m, n, w, ok);
  }

  lemma ProgressThroughDns(e: Env, v: View, m: View, n: View, w: View, ok: bool)
    requires BeforeDns(e, v, m, n) && DnsStep(e, n, w, ok)
    ensures Calm(e, v.status, v) && w.lost == v.lost ==> Calm(e, w.kept, w)
    ensures Calm(e, v.status, v) && AllDone(e, v.status, v) ==>
      && w.mutations == v.mutations && w.serviceWrites == v.serviceWrites
      && (NoFaults(v, w) ==> w.kept == v.status)
    ensures NoFaults(v, w) && Calm(e, v.status, v) && Healthy(e, v.status, v.zones) ==>
      Healthy(e, w.kept, w.zones) && (Waiting(w.kept, w.endpoints) || AllDone(e, w.kept, w))
    ensures NoFaults(v, w) ==> StateFollows(e, v, w)
    ensures Calm(e, v.status, v) && ok && Stuck(e, v.status, v.zones) ==> Forgotten(e.spec.dns, v.status)
    ensures NoFaults(v, w) && Calm(e, v.status, v) && Healthy(e, v.status, v.zones) && AllDone(e, v.status, v) ==> ok
  {
    hide *;
    if NoFaults(v, w) {
      StateThroughDns(e, v, m, n, w, ok);
    }
    if Calm(e, v.status, v) {
      QuietThroughDns(e, v, m, n, w, ok);
      SuccessThroughDns(e, v, m, n, w, ok);
      if NoFaults(v, w) && Healthy(e, v.status, v.zones) {
        SafeThroughDns(e, v, m, n, w, ok);
        DoneThroughDns(e, v, m, n, w, ok);
      }
    }
  }

  /** When a pass succeeds. */
  lemma SuccessThroughDns(e: Env, v: View, m: View, n: View, w: View, ok: bool)
    requires BeforeDns(e, v, m, n) && DnsStep(e, n, w, ok) && Calm(e, n.status, n)
    ensures ok && Stuck(e, v.status, v.zones) ==> Forgotten(e.spec.dns, v.status)
    ensures NoFaults(v, w) && Healthy(e, v.status, v.zones) && AllDone(e, v.status, v) ==> ok
  {
    hide GroupDone, EndpointReady, Groups.GroupsInv, EndpointsInv, ZoneDone, ZonePinned, DnsCalm, Witnessed, ZoneIds,
         RulesHealthy, SubnetsHealthy;
    hide StateFollows, MayCreateZone, RecordTrue, FirstSeenUnsettled, Healthy, Naming.GenerateName, ZoneStuck,
         ZoneHealthy, ZoneHistory, ChoiceHolds, TagsTrue, CacheKnown, RecordAsked;
    if NoFaults(v, w) && Healthy(e, v.status, v.zones) && AllDone(e, v.status, v) && !PrivateDnsActive(e) {
      HealthyMeans(e, v.status, v.zones);
      DoneGroupExists(e, v.status, v.groups);
      EndpointReadyFollows(e, v.status, m.status, v.endpoints);
      ReadyForDns(e, v, n);
    }
  }

  lemma StateThroughDns(e: Env, v: View, m: View, n: View, w: View, ok: bool)
    requires BeforeDns(e, v, m, n) && DnsStep(e, n, w, ok) && NoFaults(v, w)
    ensures StateFollows(e, v, w)
  {
    hide GroupDone, EndpointReady, Groups.GroupsInv, EndpointsInv, DnsDone, ZonePinned, DnsCalm, Witnessed, ZoneIds,
         RulesHealthy, SubnetsHealthy;
    hide DnsProgress, MayCreateZone, RecordTrue, EndpointUndisturbed, Naming.GenerateName;
    GroupDoneFollows(e, v.status, m.status.(group := v.status.group), v.groups);
  }

  method ValidateDns(r: VpcEndpointReconciler) returns (res: Result<()>)
    requires r.Synced()
    modifies r`status, r`cache, r`unseen, r.k8s`status, r.k8s`failedWrites, r.k8s`service, r.k8s`serviceWrites
    modifies r.k8s`budget
    modifies r.aws`zones, r.aws`authorized, r.aws`lost, r.aws`nextZone, r.aws`mutations, r.aws`creations, r.aws`budget
    modifies r.aws`answers
    ensures DnsStep(r.EnvOf(), old(r.ViewOf()), r.ViewOf(), res.Ok?)
    ensures res.Ok? ==> r.Synced()
  {
    hide DnsRel;
    res := ValidateCustomDns(r);
  }

  /** In which order things are built: no endpoint is touched before the group has its tags and its rules; no zone,
      record or service before the endpoint has its subnets and its group, or is on its way; and neither with private
      DNS. */
  ghost predicate InOrder(e: Env, v: View, w: View) {
    && (w.endpoints != v.endpoints || w.nextEndpoint != v.nextEndpoint ==> GroupDone(e, w.kept, w.groups))
    && (w.zones != v.zones || w.service != v.service || w.serviceWrites != v.serviceWrites ==>
          && GroupDone(e, w.kept, w.groups) && NotFailed(w.kept.endpoint, w.endpoints)
          && (EndpointReady(e, w.kept, w.endpoints) || Waiting(w.kept, w.endpoints)))
    && (e.privateDns && e.spec.enablePrivateDns ==>
          w.zones == v.zones && w.service == v.service && w.serviceWrites == v.serviceWrites)
  }

  lemma GroupInOrder(e: Env, v: View, w: View)
    requires GroupRel(e, v, w, false)
    ensures InOrder(e, v, w)
  {
  }

  lemma EndpointInOrder(e: Env, v: View, m: View, w: View, ok: bool)
    requires GroupRel(e, v, m, true) && EndpointRel(e, m, w, ok)
    ensures InOrder(e, v, w)
  {
    hide GroupDone, EndpointReady, Groups.GroupsInv, EndpointsInv, SubnetsHealthy, RulesHealthy, RulesRefused,
         StateFollows, EndpointUndisturbed, FirstSeenUnsettled, RecordTrue, Waiting, NotFailed, EndpointsMade;
    GroupDoneFollows(e, m.status, w.kept, w.groups);
  }

  lemma DnsInOrder(e: Env, v: View, m: View, n: View, w: View, ok: bool)
    requires BeforeDns(e, v, m, n) && DnsStep(e, n, w, ok)
    ensures InOrder(e, v, w)
  {
    hide GroupDone, EndpointReady, Groups.GroupsInv, EndpointsInv, SubnetsHealthy, RulesHealthy, RulesRefused,
         StateFollows, EndpointUndisturbed, FirstSeenUnsettled, RecordTrue, NotFailed, EndpointsMade;
    hide DnsProgress, MayCreateZone, ZoneHistory, Witnessed, CacheKnown, ChoiceHolds, RecordAsked, TagsTrue, Spelled,
         ZonePinned, DnsCalm, ZoneIds;
    GroupDoneFollows(e, m.status, n.kept, n.groups);
    GroupDoneFollows(e, n.status, w.kept, w.groups);
    EndpointReadyFollows(e, n.status, w.kept, w.endpoints);
  }

  /** validateResources with the three validations. */
  method ValidateResources(r: VpcEndpointReconciler) returns (res: Result<()>)
    requires r.Synced() && r.Parsed()
    modifies r`status, r`cache, r`unseen, r.k8s`status, r.k8s`failedWrites, r.k8s`service, r.k8s`serviceWrites
    modifies r.k8s`budget
    modifies r.aws`groups, r.aws`nextGroup, r.aws`endpoints, r.aws`nextEndpoint, r.aws`zones, r.aws`authorized
    modifies r.aws`lost, r.aws`nextZone
    modifies r.aws`mutations, r.aws`creations, r.aws`budget, r.aws`answers
    ensures PassRel(r.EnvOf(), old(r.ViewOf()), r.ViewOf(), res.Ok?)
    ensures InOrder(r.EnvOf(), old(r.ViewOf()), r.ViewOf())
    ensures res.Ok? ==> r.Synced()
  {
    hide VpcEndpointReconciler.ViewOf, GroupRel, EndpointRel, DnsStep, PassRel, InOrder, Naming.GenerateName,
         Naming.GetClusterLegacyTagKey;
    ghost var e, v := r.EnvOf(), r.ViewOf();
    res := ValidateGroup(r);
    ghost var m := r.ViewOf();
    if res.Err? {
      GroupIsPass(e, v, m);
      GroupInOrder(e, v, m);
    } else {
      res := ValidateEndpoint(r);
      ghost var n := r.ViewOf();
      if res.Err? {
        EndpointIsPass(e, v, m, n);
        EndpointInOrder(e, v, m, n, false);
      } else {
        res := ValidateDns(r);
        DnsIsPass(e, v, m, n, r.ViewOf(), res.Ok?);
        DnsInOrder(e, v, m, n, r.ViewOf(), res.Ok?);
      }
    }
  }

  /** What is persisted once an endpoint was seen: each of the two status writes, that of the id and that of the
      conditions, may have failed. */
  function AfterWrites(st: Status, id: Id, state: EndpointState, finished: bool, first: bool, second: bool): Status {
    if !first then st else if !second then st.(endpoint := id) else SeenStatus(st, id, state, finished)
  }

  /** A True record condition goes on meaning what it says exactly when the endpoint that was seen is the recorded one,
      or its id was not stored, or it was seen in a state that resets the condition and the reset was stored as well. So
      a replacement first seen available or rejected leaves the condition True while the record still points to the old
      endpoint, and so does any replacement when the second write fails. */
  lemma FastPathSafeIff(st: Status, id: Id, state: EndpointState, finished: bool, first: bool, second: bool)
    requires RecordNamed(st)
    ensures (forall zones: map<Id, Zone> | RecordTrue(st, zones) ::
               RecordTrue(AfterWrites(st, id, state, finished, first, second), zones)) <==>
            st.recordCond != CondTrue || id == st.endpoint || !first || (second && !SettledState(state))
  {
    var kept := AfterWrites(st, id, state, finished, first, second);
    if st.recordCond == CondTrue && id != st.endpoint && first && (!second || SettledState(state)) {
      var zone := NewZone("example.com", NO_ID);
      var zones := map[st.zone.n := WithRecord(zone, st.record, EndpointDns(st.endpoint))];
      assert RecordTrue(st, zones);
      assert !RecordTrue(kept, zones);
    }
  }

  /** An input on which the second write makes the difference, and one on which it does not help. */
  lemma ReplacedEndpointExample(st: Status)
    requires st.recordCond == CondTrue && st.zone == Bare(1) && st.record == "api.example.com" && st.endpoint == 5
    ensures var zones := map[1 := WithRecord(NewZone("example.com", 7), st.record, EndpointDns(5))];
      && RecordTrue(st, zones)
      && RecordTrue(AfterWrites(st, 6, Pending, true, true, true), zones)
      && !RecordTrue(AfterWrites(st, 6, Pending, true, true, false), zones)
      && !RecordTrue(AfterWrites(st, 6, Available, true, true, true), zones)
  {
    hide NewZone, Fqdn;
  }

  // ---- readiness ----

  predicate Ready(st: Status) {
    Conditions(st) != [] && forall c | c in Conditions(st) :: c
  }

  /** Ready: some condition has been set, and none of the five is False. */
  lemma ReadyMeans(st: Status)
    ensures var all := {st.groupCond, st.endpointCond, st.recordCond, st.tagsCond, st.serviceCond};
            Ready(st) <==> CondTrue in all && CondFalse !in all
  {
    var g, n, d, t, x :=
      Entry(st.groupCond), Entry(st.endpointCond), Entry(st.recordCond), Entry(st.tagsCond), Entry(st.serviceCond);
    assert forall c :: c in Conditions(st) <==> c in g || c in n || c in d || c in t || c in x;
    assert forall c: Condition :: (false in Entry(c) <==> c == CondFalse) && (true in Entry(c) <==> c == CondTrue);
    if Conditions(st) != [] {
      assert Conditions(st)[0] in Conditions(st);
    }
  }

  /** A CR with nothing left to do is ready exactly when no condition that is written elsewhere is stuck at False. */
  lemma ReadyIff(e: Env, st: Status, v: View)
    requires AllDone(e, st, v)
    ensures Ready(st) <==> CondFalse !in {st.recordCond, st.tagsCond, st.serviceCond}
    ensures !PrivateDnsActive(e) ==> st.recordCond == CondTrue
  {
    hide Groups.GroupDone, EndpointConfigured, ZoneDone, AssociationsDone, ServiceDone;
    ReadyMeans(st);
  }
}
