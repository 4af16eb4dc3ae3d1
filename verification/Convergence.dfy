/** Convergence: once calls no longer fail and the surroundings are healthy, a few reconciles settle the CR for good. */
module Convergence {
  import opened Aws
  import opened Kube
  import opened Reconciler
  import opened HostedZoneCache
  import opened DnsStage
  import opened EndpointStage
  import opened ClusterInfo
  import opened Validation
  import opened Controller
  import opened Rules
  import opened Runs
  import Groups = SecurityGroupStage
  import Naming

  // ---- the endpoint ----

  /** AWS and the service owner doing their part for one endpoint: a pending one is accepted and becomes available, one
      that is being deleted goes away. A failed one stays as it is. */
  function Resolved(endpoints: map<Id, Endpoint>, id: Id): map<Id, Endpoint> {
    if id !in endpoints then endpoints
    else
      match endpoints[id].state
      case PendingAcceptance => endpoints[id := endpoints[id].(state := Available)]
      case Pending => endpoints[id := endpoints[id].(state := Available)]
      case Deleting(_) => endpoints - {id}
      case Deleted => endpoints - {id}
      case _ => endpoints
  }

  method Resolve(aws: AwsClient, id: Id)
    modifies aws`endpoints
    ensures aws.endpoints == Resolved(old(aws.endpoints), id)
  {
    if id in aws.endpoints {
      match aws.endpoints[id].state {
        case PendingAcceptance => aws.endpoints := aws.endpoints[id := aws.endpoints[id].(state := Available)];
        case Pending => aws.endpoints := aws.endpoints[id := aws.endpoints[id].(state := Available)];
        case Deleting(_) => aws.endpoints := aws.endpoints - {id};
        case Deleted => aws.endpoints := aws.endpoints - {id};
        case _ =>
      }
    }
  }

  /** An endpoint that carries the CR's tags has failed. */
  ghost predicate HasFailed(e: Env, infra: string, v: View) {
    exists i :: i in v.endpoints && v.endpoints[i].state == Failed
      && Owned(v.endpoints[i].tags, EndpointTag(e, v.kept.(infra := infra)), e.cluster)
  }

  /** The CR's endpoint is recorded and available. */
  predicate HasEndpoint(v: View) {
    v.kept.endpoint in v.endpoints && v.endpoints[v.kept.endpoint].state == Available
  }

  /** The CR has no endpoint at all. */
  ghost predicate LacksEndpoint(e: Env, infra: string, v: View) {
    v.kept.endpoint !in v.endpoints && NoneOwned(v.endpoints, EndpointTag(e, v.kept.(infra := infra)), e.cluster)
  }

  // ---- the surroundings ----

  /** What a CR needs of others in order to settle: everything it needs can be read, whatever VPC is chosen serves, a
      new endpoint is not rejected or failed from the start. Nothing is said of the endpoint and the zone that it
      has. */
  ghost predicate Hopeful(e: Env, infra: string, v: View) {
    && ParseHealthy(e.spec, v.kept, e.lookups, e.catalog)
    && (forall st | InputsFilled(e.spec, e.lookups, v.kept, st) && InputsCurrent(e, st, infra) &&
          (v.kept.vpc == NO_ID ==> Allowed(st.vpc, e.spec.vpc, e.catalog, v.endpoints, e.cluster)) ::
          Offered(e, WithInputs(v.kept, st), v.zones))
    && (e.catalog.firstState == PendingAcceptance || e.catalog.firstState == Pending
          || e.catalog.firstState == Available)
  }

  /** Moreover the zone cache is right. */
  ghost predicate Promising(e: Env, infra: string, v: View) {
    Safe(e, infra, v) && Calm(e, v.kept, v) && Hopeful(e, infra, v)
  }

  /** What a clean reconcile, and the resolution of the endpoint after it, lead to. */
  ghost predicate Step(e: Env, infra: string, v: View, w: View, x: View) {
    LiveRel(e, infra, v, w) && NoFaults(v, w) && x == w.(endpoints := Resolved(w.endpoints, w.kept.endpoint))
  }

  lemma ResolvedKeepsEndpoints(endpoint: Id, vpc: Id, m: map<Id, Endpoint>, next: Id, name: string, cluster: string)
    requires EndpointsInv(endpoint, vpc, m, next, name, cluster)
    ensures EndpointsInv(endpoint, vpc, Resolved(m, endpoint), next, name, cluster)
  {
  }

  lemma ResolvedKeepsSafe(e: Env, infra: string, w: View, x: View)
    requires Safe(e, infra, w) && x == w.(endpoints := Resolved(w.endpoints, w.kept.endpoint))
    ensures Safe(e, infra, x)
  {
    hide Resolved, EndpointsInv, Groups.GroupsInv, GroupTag, EndpointTag, InfraOf, Accounted;
    ResolvedKeepsEndpoints(w.kept.endpoint, w.kept.vpc, w.endpoints, w.nextEndpoint,
      EndpointTag(e, w.kept.(infra := infra)), e.cluster);
  }

  lemma StepKeepsSafe(e: Env, infra: string, v: View, w: View, x: View)
    requires Step(e, infra, v, w, x) && Safe(e, infra, v)
    ensures Safe(e, infra, w) && Safe(e, infra, x)
  {
    hide Safe, FastPath, AllDone, Healthy, Calm, RecordUndisturbed, StateFollows, ParseHealthy, RulesHealthy,
         InputsFilled, InputsCurrent, EndpointUntouched, ServiceFollows, Traces, Resolved;
    ResolvedKeepsSafe(e, infra, w, x);
  }

  /** A zone that cannot be used leaves its mode nothing else to need. */
  lemma OfferedWhenStuck(e: Env, st: Status, st': Status, zones: map<Id, Zone>, zones': map<Id, Zone>)
    requires Offered(e, st, zones) && SameInputs(st, st') && Stuck(e, st, zones)
    requires st'.zone == st.zone && zones'.Keys == zones.Keys
    ensures Offered(e, st', zones') && Stuck(e, st', zones')
  {
    hide RulesHealthy, DistinctVpcs, SubnetsHealthy, WantedSubnets;
  }

  /** A clean reconcile leaves the surroundings as promising as before, and a zone that cannot be used as it is. In any
      other case the CR has its group afterwards, and either its endpoint is not ready or it is done. */
  lemma StaysPromising(e: Env, infra: string, v: View, w: View, x: View)
    requires Promising(e, infra, v) && Step(e, infra, v, w, x)
    ensures Promising(e, infra, x) && InputsCurrent(e, x.kept, infra)
    ensures Stuck(e, v.kept, v.zones) <==> Stuck(e, x.kept, x.zones)
    ensures !Stuck(e, v.kept, v.zones) ==>
      && x.kept.group in x.groups && Healthy(e, WithInputs(v.kept, w.kept), v.zones)
      && (GroupAppeared(Loaded(v, infra), w) || Waiting(w.kept, w.endpoints) || AllDone(e, w.kept, w))
  {
    hide Safe, ParseHealthy, InputsFilled, Allowed, Healthy, Offered, AllDone, RecordUndisturbed, StateFollows,
         RulesHealthy, Resolved, CacheInv, Waiting, ServiceFollows, FastPath, EndpointUntouched, Traces;
    ResolvedKeepsSafe(e, infra, w, x);
    ParseHealthyFilled(e.spec, v.kept, w.kept, e.lookups, e.catalog);
    var st' := WithInputs(v.kept, w.kept);
    assert Offered(e, st', v.zones);
    HealthyIff(e, st', v.zones);
    HealthyIff(e, w.kept, w.zones);
    if Stuck(e, v.kept, v.zones) {
      StuckTraces(e, infra, v, w);
      OfferedWhenStuck(e, st', w.kept, v.zones, w.zones);
    }
    forall st | InputsFilled(e.spec, e.lookups, x.kept, st) && InputsCurrent(e, st, infra)
      ensures Offered(e, WithInputs(x.kept, st), x.zones)
    {
      SameWhenCurrent(e, infra, x.kept, st);
    }
  }

  lemma StuckTraces(e: Env, infra: string, v: View, w: View)
    requires Traces(e, infra, v, w) && Stuck(e, v.kept, v.zones)
    ensures w.kept.zone == v.kept.zone && w.zones.Keys == v.zones.Keys && Stuck(e, w.kept, w.zones)
  {
    hide Safe, ZoneHistory, CondsFollow;
  }

  /** Once the inputs are recorded they do not change any more. */
  lemma SameWhenCurrent(e: Env, infra: string, st: Status, st': Status)
    requires InputsCurrent(e, st, infra) && InputsFilled(e.spec, e.lookups, st, st') && InputsCurrent(e, st', infra)
    ensures WithInputs(st, st') == st
  {
    hide ServiceOf, InfraOf;
  }

  // ---- a failed endpoint ----

  /** A clean reconcile leaves a failed endpoint failed, and makes none. */
  lemma StaysFailed(e: Env, infra: string, v: View, w: View, x: View)
    requires Safe(e, infra, v) && Step(e, infra, v, w, x)
    ensures HasFailed(e, infra, v) ==> HasFailed(e, infra, x)
    ensures e.catalog.firstState != Failed && HasFailed(e, infra, x) ==> HasFailed(e, infra, v)
  {
    hide FastPath, AllDone, Healthy, Calm, RecordUndisturbed, StateFollows, ParseHealthy, RulesHealthy,
         InputsFilled, InputsCurrent, ServiceFollows, Groups.GroupsInv, EndpointsInv, InfraOf, Accounted, HasFailed;
    hide EndpointTag, GroupTag, Resolved;
    StepKeepsSafe(e, infra, v, w, x);
    GroupTagOf(e, v.kept, infra);
    GroupTagOf(e, w.kept, infra);
    if StateFollows(e, Loaded(v, infra), w) {
      FailureFollows(e, infra, v, w, x);
    } else {
      FailureUntouched(e, infra, v, w, x);
    }
  }

  lemma FailureUntouched(e: Env, infra: string, v: View, w: View, x: View)
    requires w.endpoints == v.endpoints && w.kept.endpoint == v.kept.endpoint
      && x == w.(endpoints := Resolved(w.endpoints, w.kept.endpoint))
    requires EndpointTag(e, v.kept.(infra := infra)) == EndpointTag(e, w.kept.(infra := infra))
    ensures HasFailed(e, infra, v) == HasFailed(e, infra, x)
  {
    hide EndpointTag;
    if HasFailed(e, infra, v) {
      var i :| i in v.endpoints && v.endpoints[i].state == Failed
        && Owned(v.endpoints[i].tags, EndpointTag(e, v.kept.(infra := infra)), e.cluster);
      assert i in x.endpoints && x.endpoints[i] == v.endpoints[i];
    }
  }

  lemma FailureFollows(e: Env, infra: string, v: View, w: View, x: View)
    requires x == w.(endpoints := Resolved(w.endpoints, w.kept.endpoint))
    requires StateFollows(e, Loaded(v, infra), w)
    requires EndpointTag(e, v.kept.(infra := infra)) == EndpointTag(e, w.kept.(infra := infra))
    requires EndpointsInv(v.kept.endpoint, v.kept.vpc, v.endpoints, v.nextEndpoint,
      EndpointTag(e, v.kept.(infra := infra)), e.cluster)
    requires EndpointsInv(w.kept.endpoint, w.kept.vpc, w.endpoints, w.nextEndpoint,
      EndpointTag(e, v.kept.(infra := infra)), e.cluster)
    ensures HasFailed(e, infra, v) ==> HasFailed(e, infra, x)
    ensures e.catalog.firstState != Failed && HasFailed(e, infra, x) ==> HasFailed(e, infra, v)
  {
    hide EndpointTag;
    var id := w.kept.endpoint;
    if HasFailed(e, infra, v) {
      var i :| i in v.endpoints && v.endpoints[i].state == Failed
        && Owned(v.endpoints[i].tags, EndpointTag(e, v.kept.(infra := infra)), e.cluster);
      assert i == id && w.endpoints[id].state == Failed;
      assert id in x.endpoints && x.endpoints[id] == w.endpoints[id];
    }
    if HasFailed(e, infra, x) {
      var i :| i in x.endpoints && x.endpoints[i].state == Failed
        && Owned(x.endpoints[i].tags, EndpointTag(e, x.kept.(infra := infra)), e.cluster);
      assert i == id && w.endpoints[id].state == Failed;
    }
  }

  /** A CR whose endpoint has failed is not done, and never was an endpoint of it available. */
  lemma FailedIsNotDone(e: Env, infra: string, v: View)
    requires Safe(e, infra, v) && HasFailed(e, infra, v)
    ensures !HasEndpoint(v) && !AllDone(e, v.kept, v)
  {
    hide EndpointConfigured, GroupDone, DnsDone, EndpointTag, GroupTag, Groups.GroupsInv, InfraOf, Accounted, Witnessed;
  }

  // ---- any other endpoint ----

  /** What a clean reconcile does with the endpoint of a CR that has its group. */
  lemma EndpointStep(e: Env, infra: string, v: View, w: View, x: View)
    requires Promising(e, infra, v) && Step(e, infra, v, w, x) && v.kept.group in v.groups && !Stuck(e, v.kept, v.zones)
    ensures StateFollows(e, Loaded(v, infra), w)
    ensures Waiting(w.kept, w.endpoints) || AllDone(e, w.kept, w)
    ensures EndpointsInv(v.kept.endpoint, v.kept.vpc, v.endpoints, v.nextEndpoint,
      EndpointTag(e, v.kept.(infra := infra)), e.cluster)
    ensures EndpointsInv(w.kept.endpoint, w.kept.vpc, w.endpoints, w.nextEndpoint,
      EndpointTag(e, v.kept.(infra := infra)), e.cluster)
  {
    hide ParseHealthy, InputsFilled, Allowed, AllDone, RecordUndisturbed, StateFollows, RulesHealthy, Resolved,
         DnsCalm, Waiting, Accounted, ServiceFollows, FastPath, EndpointUntouched, Traces;
    hide InfraOf, ServiceOf, EndpointsInv, Groups.GroupsInv, EndpointHealthy, ZoneHealthy, DistinctVpcs, Offered, Stuck;
    StaysPromising(e, infra, v, w, x);
    GroupTagOf(e, v.kept, infra);
    GroupTagOf(e, w.kept, infra);
  }

  /** From anywhere but a failed endpoint, the next thing is an available endpoint or none. */
  lemma FromAnywhere(e: Env, infra: string, v: View, w: View, x: View)
    requires Promising(e, infra, v) && Step(e, infra, v, w, x) && v.kept.group in v.groups && !HasFailed(e, infra, v)
    requires !Stuck(e, v.kept, v.zones)
    ensures HasEndpoint(x) || LacksEndpoint(e, infra, x)
  {
    hide Promising, LiveRel, AllDone, StateFollows, HasFailed, Stuck;
    EndpointStep(e, infra, v, w, x);
    GroupTagOf(e, v.kept, infra);
    GroupTagOf(e, w.kept, infra);
    if AllDone(e, w.kept, w) {
      DoneHasEndpoint(e, w);
    } else {
      PromisingMeans(e, infra, v);
      StaysFailed(e, infra, v, w, x);
      RecordedFailureShows(e, infra, w, x);
    }
  }

  lemma RecordedFailureShows(e: Env, infra: string, w: View, x: View)
    requires x == w.(endpoints := Resolved(w.endpoints, w.kept.endpoint))
    requires EndpointsInv(w.kept.endpoint, w.kept.vpc, w.endpoints, w.nextEndpoint,
      EndpointTag(e, w.kept.(infra := infra)), e.cluster)
    ensures w.kept.endpoint in w.endpoints && w.endpoints[w.kept.endpoint].state == Failed ==> HasFailed(e, infra, x)
  {
    hide EndpointTag;
    if w.kept.endpoint in w.endpoints && w.endpoints[w.kept.endpoint].state == Failed {
      assert w.kept.endpoint in x.endpoints && x.endpoints[w.kept.endpoint] == w.endpoints[w.kept.endpoint];
    }
  }

  lemma DoneHasEndpoint(e: Env, w: View)
    requires AllDone(e, w.kept, w)
    ensures HasEndpoint(w)
  {
    hide EndpointConfigured, GroupDone, DnsDone;
  }

  /** From none, an available one: the endpoint is created, accepted and becomes available. */
  lemma FromLacking(e: Env, infra: string, v: View, w: View, x: View)
    requires Promising(e, infra, v) && Step(e, infra, v, w, x) && v.kept.group in v.groups && LacksEndpoint(e, infra, v)
    requires !Stuck(e, v.kept, v.zones)
    ensures HasEndpoint(x)
  {
    hide LiveRel, AllDone, Safe, Calm, ParseHealthy, Healthy, Offered, Stuck, Naming.GenerateName;
    EndpointStep(e, infra, v, w, x);
  }

  /** From an available endpoint, a CR with nothing left to do. */
  lemma FromHaving(e: Env, infra: string, v: View, w: View, x: View)
    requires Promising(e, infra, v) && Step(e, infra, v, w, x) && v.kept.group in v.groups && HasEndpoint(v)
    requires !Stuck(e, v.kept, v.zones)
    ensures x == w && HasEndpoint(x) && AllDone(e, x.kept, x)
  {
    hide LiveRel, AllDone, Safe, Calm, ParseHealthy, Healthy, Promising, Stuck, Naming.GenerateName;
    EndpointStep(e, infra, v, w, x);
    assert w.kept.endpoint == v.kept.endpoint;
    if AllDone(e, w.kept, w) {
      DoneHasEndpoint(e, w);
    }
  }

  lemma PromisingMeans(e: Env, infra: string, v: View)
    requires Promising(e, infra, v)
    ensures Safe(e, infra, v) && e.catalog.firstState != Failed
  {
  }

  // ---- the record and the service ----

  /** A clean reconcile keeps what the record and tags conditions stand for. */
  lemma StepKeepsFastPath(e: Env, infra: string, v: View, w: View, x: View)
    requires Safe(e, infra, v) && Step(e, infra, v, w, x) && FastPath(e, v.kept.(infra := infra), v)
    ensures FastPath(e, x.kept.(infra := infra), x)
  {
    hide Safe, AllDone, Healthy, Calm, RecordUndisturbed, StateFollows, ParseHealthy, RulesHealthy, InputsFilled,
         InputsCurrent, EndpointUntouched, ServiceFollows, Traces, RecordTrue, RecordAsked, TagsTrue, ChoiceHolds,
         Accounted, EndpointTag, InfraOf;
  }

  /** Whether the service was written in between decides what became of its condition. */
  predicate ServiceSince(v: View, w: View) {
    && v.serviceWrites <= w.serviceWrites
    && w.kept.serviceCond == if w.serviceWrites == v.serviceWrites then v.kept.serviceCond else CondTrue
  }

  lemma StepServes(e: Env, infra: string, v: View, w: View, x: View)
    requires Step(e, infra, v, w, x)
    ensures ServiceSince(v, x)
  {
    hide Safe, FastPath, AllDone, Healthy, Calm, RecordUndisturbed, StateFollows, ParseHealthy, RulesHealthy,
         InputsFilled, InputsCurrent, EndpointUntouched, Resolved;
  }

  // ---- settling ----

  /** One clean reconcile, and then the endpoint is resolved. */
  method CleanPass(r: VpcEndpointReconciler, ghost infra: string) returns (ok: bool, ghost w: View)
    requires r.k8s.present && !r.k8s.stored.deleting && r.aws.budget == 0 && r.k8s.budget == 0
    requires Safe(CrEnv(r, infra), infra, r.ViewOf())
    modifies r, r.k8s, r.aws
    ensures r.k8s.present && r.k8s.stored == old(r.k8s.stored).(finalizer := r.k8s.stored.finalizer)
      && r.aws.budget == 0 && r.k8s.budget == 0
    ensures CrEnv(r, infra) == old(CrEnv(r, infra)) && Safe(CrEnv(r, infra), infra, r.ViewOf())
    ensures Step(CrEnv(r, infra), infra, old(r.ViewOf()), w, r.ViewOf())
    ensures AnswerRel(CrEnv(r, infra), infra, old(r.ViewOf()), w, ok)
  {
    hide LiveRel, AnswerRel, Safe;
    ghost var e, v := CrEnv(r, infra), r.ViewOf();
    ok := LivePass(r, infra);
    w := r.ViewOf();
    LiveBudgets(e, infra, v, w);
    Resolve(r.aws, r.k8s.status.endpoint);
    StepKeepsSafe(e, infra, v, w, r.ViewOf());
  }

  lemma LiveBudgets(e: Env, infra: string, v: View, w: View)
    requires LiveRel(e, infra, v, w)
    ensures w.awsBudget <= v.awsBudget && w.k8sBudget <= v.k8sBudget
  {
  }

  /** What any number of clean reconciles from v to x keeps: a failed endpoint, the conditions' meaning, the service's
      condition; from promising surroundings, which stay promising, it goes on. */
  ghost predicate Leads(e: Env, infra: string, v: View, x: View) {
    && Safe(e, infra, v) && Safe(e, infra, x)
    && (HasFailed(e, infra, v) ==> HasFailed(e, infra, x))
    && (e.catalog.firstState != Failed && HasFailed(e, infra, x) ==> HasFailed(e, infra, v))
    && (FastPath(e, v.kept.(infra := infra), v) ==> FastPath(e, x.kept.(infra := infra), x))
    && ServiceSince(v, x) && CondsFollow(e, v.kept, x.kept)
    && (Stuck(e, v.kept, v.zones) ==> Stuck(e, x.kept, x.zones))
    && (Promising(e, infra, v) ==> Promising(e, infra, x) && (Stuck(e, x.kept, x.zones) ==> Stuck(e, v.kept, v.zones)))
    && v.nextEndpoint <= x.nextEndpoint && (Promising(e, infra, v) ==> ServesSince(e, infra, v, x))
  }

  /** Endpoints stay what they are, and a new one is for the service that is recorded, which does not change once it has
      been read. */
  ghost predicate ServesSince(e: Env, infra: string, v: View, x: View) {
    && InputsCurrent(e, x.kept, infra) && (InputsCurrent(e, v.kept, infra) ==> x.kept.service == v.kept.service)
    && forall i | i in x.endpoints ::
         || (i in v.endpoints && x.endpoints[i].service == v.endpoints[i].service
             && x.endpoints[i].tags == v.endpoints[i].tags)
         || (i >= v.nextEndpoint && x.endpoints[i].service == x.kept.service)
  }

  lemma ServesOn(e: Env, infra: string, v: View, w: View, x: View)
    requires ServesSince(e, infra, v, w) && ServesSince(e, infra, w, x) && v.nextEndpoint <= w.nextEndpoint
    ensures ServesSince(e, infra, v, x)
  {
    hide InputsCurrent;
  }

  lemma StepServesSince(e: Env, infra: string, v: View, w: View, x: View)
    requires Safe(e, infra, v) && Step(e, infra, v, w, x)
    ensures v.nextEndpoint <= x.nextEndpoint
    ensures InputsCurrent(e, x.kept, infra) ==> ServesSince(e, infra, v, x)
  {
    hide Safe, LiveRel;
    PassServes(e, infra, v, w);
    if InputsCurrent(e, v.kept, infra) && InputsCurrent(e, x.kept, infra) {
      StepFillsInputs(e, infra, v, w);
      SameWhenCurrent(e, infra, v.kept, w.kept);
    }
  }

  lemma StepFillsInputs(e: Env, infra: string, v: View, w: View)
    requires LiveRel(e, infra, v, w)
    ensures InputsFilled(e.spec, e.lookups, v.kept, w.kept)
  {
    hide Safe, FastPath, AllDone, Healthy, Calm, RecordUndisturbed, StateFollows, ParseHealthy, RulesHealthy,
         InputsFilled, InputsCurrent, EndpointUntouched, ServiceFollows, Traces;
  }

  lemma CondsFollowOn(e: Env, st: Status, st': Status, st'': Status)
    requires CondsFollow(e, st, st') && CondsFollow(e, st', st'')
    ensures CondsFollow(e, st, st'')
  {
  }

  lemma StepTraces(e: Env, infra: string, v: View, w: View, x: View)
    requires Step(e, infra, v, w, x)
    ensures CondsFollow(e, v.kept, x.kept)
    ensures Stuck(e, v.kept, v.zones) ==>
      Stuck(e, x.kept, x.zones) && x.kept.zone == v.kept.zone && NoNewRecord(e.spec.dns, v.kept, x.kept)
  {
    hide Safe, FastPath, AllDone, Healthy, Calm, RecordUndisturbed, StateFollows, ParseHealthy, RulesHealthy,
         InputsFilled, InputsCurrent, EndpointUntouched, Resolved, ServiceFollows, CondsFollow, ZoneHistory;
  }

  lemma StepLeads(e: Env, infra: string, v: View, w: View, x: View)
    requires Safe(e, infra, v) && Step(e, infra, v, w, x)
    ensures Leads(e, infra, v, x)
  {
    hide Safe, Step, HasFailed, FastPath, ServiceSince, Promising, InputsCurrent, CondsFollow, Stuck, ServesSince;
    StepKeepsSafe(e, infra, v, w, x);
    StepTraces(e, infra, v, w, x);
    StaysFailed(e, infra, v, w, x);
    StepServes(e, infra, v, w, x);
    StepServesSince(e, infra, v, w, x);
    if FastPath(e, v.kept.(infra := infra), v) {
      StepKeepsFastPath(e, infra, v, w, x);
    }
    if Promising(e, infra, v) {
      StaysPromising(e, infra, v, w, x);
    }
  }

  lemma LeadsOn(e: Env, infra: string, v: View, w: View, x: View)
    requires Leads(e, infra, v, w) && Leads(e, infra, w, x)
    ensures Leads(e, infra, v, x)
  {
    hide Safe, HasFailed, FastPath, Promising, CondsFollow, Stuck, ServesSince;
    CondsFollowOn(e, v.kept, w.kept, x.kept);
    if Promising(e, infra, v) {
      ServesOn(e, infra, v, w, x);
    }
  }

  /** What four of them lead to. */
  lemma FourSteps(e: Env, infra: string, v0: View, w1: View, v1: View, w2: View, v2: View, w3: View, v3: View, w4: View,
                  v4: View)
    requires Step(e, infra, v0, w1, v1) && Step(e, infra, v1, w2, v2) && Step(e, infra, v2, w3, v3)
      && Step(e, infra, v3, w4, v4)
    requires Promising(e, infra, v0) && !HasFailed(e, infra, v0) && !Stuck(e, v0.kept, v0.zones)
    ensures AllDone(e, v4.kept, v4) && HasEndpoint(v4)
  {
    hide Promising, Step, AllDone, HasEndpoint, LacksEndpoint, HasFailed, Stuck;
    PromisingMeans(e, infra, v0);
    StaysPromising(e, infra, v0, w1, v1);
    StaysFailed(e, infra, v0, w1, v1);
    StaysPromising(e, infra, v1, w2, v2);
    FromAnywhere(e, infra, v1, w2, v2);
    StaysPromising(e, infra, v2, w3, v3);
    if HasEndpoint(v2) {
      FromHaving(e, infra, v2, w3, v3);
    } else {
      FromLacking(e, infra, v2, w3, v3);
    }
    FromHaving(e, infra, v3, w4, v4);
  }

  /** Settled: nothing is left to do and the next reconcile will find it so. */
  ghost predicate Settled(e: Env, infra: string, v: View) {
    && Promising(e, infra, v) && AllDone(e, v.kept, v) && HasEndpoint(v) && v.kept.group in v.groups
    && InputsCurrent(e, v.kept, infra)
  }

  /** What a settled CR amounts to in Route 53, when the conditions were true before. */
  lemma SettledRecordHolds(e: Env, infra: string, v: View)
    requires Settled(e, infra, v) && FastPath(e, v.kept.(infra := infra), v) && !PrivateDnsActive(e)
    ensures RecordHolds(v.kept, v.zones)
    ensures ModeOf(e.spec.dns) == ByDomain ==> ZoneTagged(v.kept, v.zones, e.cluster)
  {
    hide Promising, GroupDone, EndpointReady, AssociationsDone, ServiceDone;
  }

  lemma LeadsToRecord(e: Env, infra: string, v: View, x: View)
    requires Leads(e, infra, v, x)
    ensures Settled(e, infra, x) && FastPath(e, v.kept.(infra := infra), v) ==>
      && FastPath(e, x.kept.(infra := infra), x)
      && (!PrivateDnsActive(e) ==> RecordHolds(x.kept, x.zones))
  {
    hide Safe, Settled, FastPath, HasFailed, AllDone, Promising, Ready, RecordHolds;
    if Settled(e, infra, x) && FastPath(e, x.kept.(infra := infra), x) && !PrivateDnsActive(e) {
      SettledRecordHolds(e, infra, x);
    }
  }

  /** A CR that had no endpoint has settled with one for the service it records. */
  lemma LeadsToService(e: Env, infra: string, v: View, x: View)
    requires Leads(e, infra, v, x) && Promising(e, infra, v) && LacksEndpoint(e, infra, v)
    requires HasEndpoint(x)
    ensures x.endpoints[x.kept.endpoint].service == x.kept.service
  {
    hide HasFailed, FastPath, ServiceSince, InputsCurrent, CondsFollow, Stuck, Groups.GroupsInv, Witnessed, Accounted,
         InfraOf, Hopeful, Calm;
    GroupTagOf(e, v.kept, infra);
    GroupTagOf(e, x.kept, infra);
    hide GroupTag, EndpointTag;
  }

  /** Convergence: in promising surroundings, once calls no longer fail, four reconciles settle the CR: the first one
      sees to the group, the second to whatever became of the endpoint, the third to a new endpoint, the fourth to
      everything else. They do so exactly when no endpoint of the CR has failed and the recorded zone, if any, can be
      used. */
  method Settle(r: VpcEndpointReconciler, ghost infra: string)
    requires r.k8s.present && !r.k8s.stored.deleting && r.aws.budget == 0 && r.k8s.budget == 0
    requires Safe(CrEnv(r, infra), infra, r.ViewOf())
    modifies r, r.k8s, r.aws
    ensures r.k8s.present && r.k8s.stored == old(r.k8s.stored).(finalizer := r.k8s.stored.finalizer)
      && r.aws.budget == 0 && r.k8s.budget == 0
    ensures CrEnv(r, infra) == old(CrEnv(r, infra)) && Safe(CrEnv(r, infra), infra, r.ViewOf())
    ensures Leads(CrEnv(r, infra), infra, old(r.ViewOf()), r.ViewOf())
    ensures Promising(CrEnv(r, infra), infra, old(r.ViewOf())) ==>
      (AllDone(CrEnv(r, infra), r.k8s.status, r.ViewOf()) <==>
        && !old(HasFailed(CrEnv(r, infra), infra, r.ViewOf()))
        && !old(Stuck(CrEnv(r, infra), r.k8s.status, r.aws.zones)))
    ensures Promising(CrEnv(r, infra), infra, old(r.ViewOf())) && AllDone(CrEnv(r, infra), r.k8s.status, r.ViewOf()) ==>
      Settled(CrEnv(r, infra), infra, r.ViewOf())
    // with an endpoint for its service, if it had none before
    ensures
      (&& Promising(CrEnv(r, infra), infra, old(r.ViewOf())) && AllDone(CrEnv(r, infra), r.k8s.status, r.ViewOf())
       && old(LacksEndpoint(CrEnv(r, infra), infra, r.ViewOf()))) ==>
      && r.k8s.status.endpoint in r.aws.endpoints
      && r.aws.endpoints[r.k8s.status.endpoint].service == r.k8s.status.service
    // and then Route 53 holds the record, if the conditions were true before
    ensures
      (&& Promising(CrEnv(r, infra), infra, old(r.ViewOf())) && AllDone(CrEnv(r, infra), r.k8s.status, r.ViewOf())
       && old(FastPath(CrEnv(r, infra), r.k8s.status.(infra := infra), r.ViewOf()))
       && !PrivateDnsActive(CrEnv(r, infra))) ==>
      RecordHolds(r.k8s.status, r.aws.zones)
  {
    hide Safe, Promising, Step, AllDone, HasEndpoint, LacksEndpoint, HasFailed, Leads, InputsCurrent, Settled, FastPath,
         AnswerRel, Stuck;
    ghost var e, v0 := CrEnv(r, infra), r.ViewOf();
    ghost var w1, w2, w3, w4;
    var ok;
    ok, w1 := CleanPass(r, infra);
    ghost var v1 := r.ViewOf();
    ok, w2 := CleanPass(r, infra);
    ghost var v2 := r.ViewOf();
    ok, w3 := CleanPass(r, infra);
    ghost var v3 := r.ViewOf();
    ok, w4 := CleanPass(r, infra);
    FourLead(e, infra, v0, w1, v1, w2, v2, w3, v3, w4, r.ViewOf());
    LeadsToRecord(e, infra, v0, r.ViewOf());
    if Promising(e, infra, v0) && AllDone(e, r.k8s.status, r.ViewOf()) && LacksEndpoint(e, infra, v0) {
      SettledHasEndpoint(e, infra, r.ViewOf());
      LeadsToService(e, infra, v0, r.ViewOf());
    }
  }

  lemma SettledHasEndpoint(e: Env, infra: string, v: View)
    requires Settled(e, infra, v)
    ensures HasEndpoint(v) && v.kept.endpoint in v.endpoints
  {
    hide Promising, AllDone, InputsCurrent;
  }

  lemma FourLead(e: Env, infra: string, v0: View, w1: View, v1: View, w2: View, v2: View, w3: View, v3: View, w4: View,
                 v4: View)
    requires Safe(e, infra, v0) && Safe(e, infra, v1) && Safe(e, infra, v2) && Safe(e, infra, v3)
    requires Step(e, infra, v0, w1, v1) && Step(e, infra, v1, w2, v2) && Step(e, infra, v2, w3, v3)
      && Step(e, infra, v3, w4, v4)
    ensures Leads(e, infra, v0, v4)
    ensures Promising(e, infra, v0) ==>
      (AllDone(e, v4.kept, v4) <==> !HasFailed(e, infra, v0) && !Stuck(e, v0.kept, v0.zones))
    ensures Promising(e, infra, v0) && AllDone(e, v4.kept, v4) ==> Settled(e, infra, v4)
  {
    hide Safe, Promising, Step, AllDone, HasEndpoint, HasFailed, Leads, InputsCurrent, Stuck;
    StepLeads(e, infra, v0, w1, v1);
    StepLeads(e, infra, v1, w2, v2);
    StepLeads(e, infra, v2, w3, v3);
    StepLeads(e, infra, v3, w4, v4);
    LeadsOn(e, infra, v0, v1, v2);
    LeadsOn(e, infra, v0, v2, v3);
    LeadsOn(e, infra, v0, v3, v4);
    if HasFailed(e, infra, v0) {
      LeadsToFailed(e, infra, v0, v4);
    } else if Stuck(e, v0.kept, v0.zones) {
      LeadsToStuck(e, infra, v0, v4);
    } else if Promising(e, infra, v0) {
      FourSteps(e, infra, v0, w1, v1, w2, v2, w3, v3, w4, v4);
      LeadsMeans(e, infra, v3, v4);
      LeadsMeans(e, infra, v0, v3);
      StaysPromising(e, infra, v3, w4, v4);
    }
  }

  lemma LeadsMeans(e: Env, infra: string, v: View, x: View)
    requires Leads(e, infra, v, x)
    ensures Promising(e, infra, v) ==>
      Promising(e, infra, x) && (Stuck(e, x.kept, x.zones) ==> Stuck(e, v.kept, v.zones))
  {
    hide Safe, HasFailed, FastPath, Promising, Stuck;
  }

  lemma LeadsToStuck(e: Env, infra: string, v: View, x: View)
    requires Leads(e, infra, v, x) && Stuck(e, v.kept, v.zones)
    ensures Stuck(e, x.kept, x.zones) && !AllDone(e, x.kept, x)
  {
    hide Safe, HasFailed, FastPath, Promising, AllDone, Stuck;
    StuckIsUndone(e, x.kept, x);
  }

  lemma LeadsToFailed(e: Env, infra: string, v: View, x: View)
    requires Leads(e, infra, v, x) && HasFailed(e, infra, v)
    ensures Safe(e, infra, x) && HasFailed(e, infra, x) && !AllDone(e, x.kept, x)
  {
    hide Safe, HasFailed, FastPath, Promising, InputsCurrent, AllDone;
    FailedIsNotDone(e, infra, x);
  }

  /** A clean reconcile that finds a failed endpoint does not succeed. */
  lemma FailedFails(e: Env, infra: string, v: View, w: View, x: View, ok: bool)
    requires AnswerRel(e, infra, v, w, ok) && Safe(e, infra, w) && HasFailed(e, infra, x)
    requires x == w.(endpoints := Resolved(w.endpoints, w.kept.endpoint))
    ensures !ok
  {
    hide Groups.GroupsInv, InfraOf, Accounted, Witnessed, Calm, Stuck, NothingToDo, RulesRefused;
    GroupTagOf(e, w.kept, infra);
    hide GroupTag, EndpointTag;
    var i :| i in x.endpoints && x.endpoints[i].state == Failed
             && Owned(x.endpoints[i].tags, EndpointTag(e, x.kept.(infra := infra)), e.cluster);
    assert i in w.endpoints && w.endpoints[i].state == Failed && w.endpoints[i].tags == x.endpoints[i].tags;
  }

  /** A failed endpoint stays for good: however many clean reconciles come, and whenever, it is still there and still
      failed, none of them succeeds, and the CR is not done. Somebody else has to delete it. */
  method StayFailed(r: VpcEndpointReconciler, pauses: seq<nat>, ghost infra: string) returns (successes: nat)
    requires r.k8s.present && !r.k8s.stored.deleting && r.aws.budget == 0 && r.k8s.budget == 0
    requires Safe(CrEnv(r, infra), infra, r.ViewOf()) && HasFailed(CrEnv(r, infra), infra, r.ViewOf())
    modifies r, r.k8s, r.aws
    ensures Safe(CrEnv(r, infra), infra, r.ViewOf()) && HasFailed(CrEnv(r, infra), infra, r.ViewOf())
    ensures !AllDone(CrEnv(r, infra), r.k8s.status, r.ViewOf()) && successes == 0
  {
    hide Safe, HasFailed, AllDone, Step, AnswerRel;
    successes := 0;
    FailedIsNotDone(CrEnv(r, infra), infra, r.ViewOf());
    for i := 0 to |pauses|
      invariant r.k8s.present && !r.k8s.stored.deleting && r.aws.budget == 0 && r.k8s.budget == 0
      invariant Safe(CrEnv(r, infra), infra, r.ViewOf()) && HasFailed(CrEnv(r, infra), infra, r.ViewOf())
      invariant !AllDone(CrEnv(r, infra), r.k8s.status, r.ViewOf()) && successes == 0
    {
      ghost var e, v := CrEnv(r, infra), r.ViewOf();
      r.aws.now := r.aws.now + pauses[i];
      SafeAnytime(e, CrEnv(r, infra), infra, v);
      FailedAnytime(e, CrEnv(r, infra), infra, v);
      e := CrEnv(r, infra);
      var ok;
      ghost var w;
      ok, w := CleanPass(r, infra);
      StaysFailed(e, infra, v, w, r.ViewOf());
      StepMeans(e, infra, v, w, r.ViewOf());
      FailedFails(e, infra, v, w, r.ViewOf(), ok);
      successes := successes + if ok then 1 else 0;
      FailedIsNotDone(e, infra, r.ViewOf());
    }
  }

  lemma StepMeans(e: Env, infra: string, v: View, w: View, x: View)
    requires Step(e, infra, v, w, x) && Safe(e, infra, v)
    ensures Safe(e, infra, w) && x == w.(endpoints := Resolved(w.endpoints, w.kept.endpoint))
  {
    hide LiveRel, Safe;
    StepKeepsSafe(e, infra, v, w, x);
  }

  lemma FailedAnytime(e: Env, e': Env, infra: string, v: View)
    requires e' == e.(now := e'.now)
    ensures HasFailed(e, infra, v) == HasFailed(e', infra, v)
  {
  }

  // ---- a zone that cannot be used ----

  /** With a zone that cannot be used, no clean reconcile succeeds, however many come and whenever: the validations fail
      at the zone in domain mode, and at the record without a mode. Only without a mode and further VPCs, while a record
      counts as done, does nobody look at the zone. (`Runs.KeepStuck` says the rest, for every run.) */
  method StayStuck(r: VpcEndpointReconciler, pauses: seq<nat>, ghost infra: string) returns (successes: nat)
    requires r.k8s.present && !r.k8s.stored.deleting && r.aws.budget == 0 && r.k8s.budget == 0
    requires Safe(CrEnv(r, infra), infra, r.ViewOf()) && Calm(CrEnv(r, infra), r.k8s.status, r.ViewOf())
    requires Stuck(CrEnv(r, infra), r.k8s.status, r.aws.zones)
    requires var dns := r.k8s.stored.spec.dns;
             ModeOf(dns) == ByDomain || r.k8s.status.recordCond != CondTrue || dns.associated != []
    modifies r, r.k8s, r.aws
    ensures successes == 0 && !AllDone(CrEnv(r, infra), r.k8s.status, r.ViewOf())
    ensures Stuck(CrEnv(r, infra), r.k8s.status, r.aws.zones) && r.k8s.status.zone == old(r.k8s.status.zone)
  {
    hide Safe, AllDone, Step, AnswerRel, Stuck, Calm, ModeOf;
    successes := 0;
    ghost var dns, zone := r.k8s.stored.spec.dns, r.k8s.status.zone;
    for i := 0 to |pauses|
      invariant r.k8s.present && !r.k8s.stored.deleting && r.aws.budget == 0 && r.k8s.budget == 0
      invariant Safe(CrEnv(r, infra), infra, r.ViewOf()) && Calm(CrEnv(r, infra), r.k8s.status, r.ViewOf())
      invariant Stuck(CrEnv(r, infra), r.k8s.status, r.aws.zones) && r.k8s.status.zone == zone
      invariant r.k8s.stored.spec.dns == dns && successes == 0
      invariant ModeOf(dns) == ByDomain || r.k8s.status.recordCond != CondTrue || dns.associated != []
    {
      ghost var e, v := CrEnv(r, infra), r.ViewOf();
      r.aws.now := r.aws.now + pauses[i];
      SafeAnytime(e, CrEnv(r, infra), infra, v);
      CalmLater(e, CrEnv(r, infra), v.kept, v);
      StuckAnytime(e, CrEnv(r, infra), v.kept, v.zones);
      e := CrEnv(r, infra);
      var ok;
      ghost var w;
      ok, w := CleanPass(r, infra);
      StepTraces(e, infra, v, w, r.ViewOf());
      StuckModes(e, v.kept, v.zones);
      StepKeepsCalm(e, infra, v, w, r.ViewOf());
      StuckFails(e, infra, v, w, ok);
      successes := successes + if ok then 1 else 0;
    }
    StuckIsUndone(CrEnv(r, infra), r.k8s.status, r.ViewOf());
  }

  lemma StuckModes(e: Env, st: Status, zones: map<Id, Zone>)
    requires Stuck(e, st, zones)
    ensures ModeOf(e.spec.dns) == ByDomain || ModeOf(e.spec.dns) == NoDns
  {
  }

  lemma StuckAnytime(e: Env, e': Env, st: Status, zones: map<Id, Zone>)
    requires e' == e.(now := e'.now)
    ensures Stuck(e, st, zones) == Stuck(e', st, zones)
  {
  }

  lemma StepKeepsCalm(e: Env, infra: string, v: View, w: View, x: View)
    requires Step(e, infra, v, w, x) && Calm(e, v.kept, v)
    ensures Calm(e, x.kept, x)
  {
    hide Safe, FastPath, AllDone, Healthy, CacheInv, RecordUndisturbed, StateFollows, ParseHealthy, RulesHealthy,
         InputsFilled, InputsCurrent, EndpointUntouched, Resolved, ServiceFollows, Traces;
  }

  lemma StuckFails(e: Env, infra: string, v: View, w: View, ok: bool)
    requires AnswerRel(e, infra, v, w, ok) && Safe(e, infra, v) && Calm(e, v.kept, v) && Stuck(e, v.kept, v.zones)
    requires ModeOf(e.spec.dns) == ByDomain || v.kept.recordCond != CondTrue || e.spec.dns.associated != []
    ensures !ok
  {
    hide Calm, Stuck, NothingToDo;
    SafeMeans(e, infra, v);
  }

  // ---- staying settled ----

  /** Time that passes leaves a right cache right. */
  lemma CalmLater(e: Env, e': Env, st: Status, v: View)
    requires Calm(e, st, v) && e' == e.(now := e'.now) && e'.now >= e.now
    ensures Calm(e', st, v)
  {
    forall k | k in v.cache
      ensures Fresh(v.cache, k, e'.now) ==> Fresh(v.cache, k, e.now)
    {
    }
  }

  /** Two quiet minutes, whatever went wrong before, and the cache is right again. */
  lemma CalmAfterTtl(e: Env, e': Env, infra: string, v: View)
    requires Safe(e, infra, v) && e' == e.(now := e'.now) && e.now + TTL <= e'.now
    ensures Safe(e', infra, v) && Calm(e', v.kept, v)
  {
    hide AtMostOne, Witnessed, Explained, InfraOf;
    SafeAnytime(e, e', infra, v);
    forall k | k in v.cache
      ensures !Fresh(v.cache, k, e'.now) && k != NoZone
    {
      assert v.cache[k].fetchedAt <= e.now;
    }
  }

  lemma HopefulAnytime(e: Env, e': Env, infra: string, v: View)
    requires e' == e.(now := e'.now)
    ensures Hopeful(e, infra, v) == Hopeful(e', infra, v)
  {
    hide ParseHealthy, Allowed, InputsFilled, RulesHealthy, SubnetsHealthy, WantedSubnets, ZoneOffered, InputsCurrent;
    forall st
      ensures InputsCurrent(e, st, infra) == InputsCurrent(e', st, infra)
      ensures Offered(e, WithInputs(v.kept, st), v.zones) == Offered(e', WithInputs(v.kept, st), v.zones)
    {
      CurrentAnytime(e, e', st, infra);
    }
  }

  lemma CurrentAnytime(e: Env, e': Env, st: Status, infra: string)
    requires e' == e.(now := e'.now)
    ensures InputsCurrent(e, st, infra) == InputsCurrent(e', st, infra)
  {
  }

  lemma SettledLater(e: Env, e': Env, infra: string, v: View)
    requires Settled(e, infra, v) && e' == e.(now := e'.now) && e'.now >= e.now
    ensures Settled(e', infra, v)
  {
    hide Safe, Hopeful, InputsCurrent, AllDone, Calm;
    SafeAnytime(e, e', infra, v);
    CalmLater(e, e', v.kept, v);
    HopefulAnytime(e, e', infra, v);
    CurrentAnytime(e, e', v.kept, infra);
    DoneAnytime(e, e', v);
  }

  lemma DoneAnytime(e: Env, e': Env, v: View)
    requires e' == e.(now := e'.now)
    ensures AllDone(e, v.kept, v) == AllDone(e', v.kept, v)
  {
    hide EndpointConfigured, DnsDone, Groups.RulesMet;
  }

  /** A clean reconcile of a settled CR changes nothing in AWS or the service, nor the CR's status. */
  lemma QuietStep(e: Env, infra: string, v: View, w: View, x: View)
    requires Settled(e, infra, v) && Step(e, infra, v, w, x)
    ensures Settled(e, infra, x)
    ensures x.mutations == v.mutations && x.serviceWrites == v.serviceWrites && x.kept == v.kept
    ensures forall ok | AnswerRel(e, infra, v, w, ok) :: ok
  {
    hide Safe, ParseHealthy, InputsFilled, Allowed, Healthy, AllDone, RecordUndisturbed, StateFollows, RulesHealthy,
         Resolved, DnsCalm, Waiting, ServiceFollows, FastPath, EndpointUntouched, Traces, HasEndpoint;
    SettledIsHealthy(e, infra, v);
    StaysPromising(e, infra, v, w, x);
    FromHaving(e, infra, v, w, x);
  }

  lemma SettledIsHealthy(e: Env, infra: string, v: View)
    requires Settled(e, infra, v)
    ensures !Stuck(e, v.kept, v.zones) && NothingToDo(e, infra, v) && Calm(e, v.kept, v)
  {
    hide Safe, ParseHealthy, Allowed, Healthy, Offered, AllDone, DnsCalm, Stuck;
    HealthyIff(e, v.kept, v.zones);
    if Stuck(e, v.kept, v.zones) {
      StuckIsUndone(e, v.kept, v);
    }
    assert WithInputs(v.kept, v.kept) == v.kept && InputsFilled(e.spec, e.lookups, v.kept, v.kept);
  }

  /** Quiescence: no reconcile of a settled CR changes anything in AWS, the service or the CR's status, however often
      and whenever they come, and all of them succeed. */
  method StaySettled(r: VpcEndpointReconciler, pauses: seq<nat>, ghost infra: string) returns (failures: nat)
    requires r.k8s.present && !r.k8s.stored.deleting && r.aws.budget == 0 && r.k8s.budget == 0
    requires Safe(CrEnv(r, infra), infra, r.ViewOf())
    modifies r, r.k8s, r.aws
    ensures old(Settled(CrEnv(r, infra), infra, r.ViewOf())) ==>
      && Settled(CrEnv(r, infra), infra, r.ViewOf()) && r.k8s.status == old(r.k8s.status)
      && r.aws.mutations == old(r.aws.mutations) && r.k8s.serviceWrites == old(r.k8s.serviceWrites) && failures == 0
  {
    hide Safe, Settled, Step, AnswerRel;
    failures := 0;
    ghost var settled := Settled(CrEnv(r, infra), infra, r.ViewOf());
    for i := 0 to |pauses|
      invariant r.k8s.present && !r.k8s.stored.deleting && r.aws.budget == 0 && r.k8s.budget == 0
      invariant Safe(CrEnv(r, infra), infra, r.ViewOf())
      invariant settled ==>
        && Settled(CrEnv(r, infra), infra, r.ViewOf()) && r.k8s.status == old(r.k8s.status)
        && r.aws.mutations == old(r.aws.mutations) && r.k8s.serviceWrites == old(r.k8s.serviceWrites) && failures == 0
    {
      ghost var e, v := CrEnv(r, infra), r.ViewOf();
      r.aws.now := r.aws.now + pauses[i];
      SafeAnytime(e, CrEnv(r, infra), infra, v);
      if settled {
        SettledLater(e, CrEnv(r, infra), infra, v);
      }
      e := CrEnv(r, infra);
      var ok;
      ghost var w;
      ok, w := CleanPass(r, infra);
      failures := failures + if ok then 0 else 1;
      if settled {
        QuietStep(e, infra, v, w, r.ViewOf());
      }
    }
  }

  // ---- from anywhere, for good ----

  lemma QuietTime(e: Env, e': Env, infra: string, v: View, w: View)
    requires Safe(e, infra, v) && w == v.(awsBudget := 0, k8sBudget := 0) && e' == e.(now := e.now + TTL)
    ensures Safe(e', infra, w)
    ensures Hopeful(e', infra, w) ==> Promising(e', infra, w)
  {
    hide AtMostOne, Witnessed, Explained, InfraOf, Hopeful;
    assert Safe(e, infra, w) by {
      SafeIgnoresCalls(e, infra, v, w);
    }
    SafeAnytime(e, e', infra, w);
    CalmAfterTtl(e, e', infra, w);
  }

  lemma SafeIgnoresCalls(e: Env, infra: string, v: View, w: View)
    requires Safe(e, infra, v) && w == v.(awsBudget := 0, k8sBudget := 0)
    ensures Safe(e, infra, w)
  {
    hide Groups.GroupsInv, EndpointsInv, Witnessed, Accounted, InfraOf, GroupTag, EndpointTag;
  }

  /** The CR's mode does not see to this condition. */
  predicate Unattended(e: Env) {
    PrivateDnsActive(e) || ModeOf(e.spec.dns) != ByDomain
  }

  /** Whether a CR that got settled is ready, in terms of what it started from: no condition that nobody attends to was
      False, and the service's was not either, or the service had to be written. A True one that nobody attends to
      becomes False, for good, when the endpoint is seen before it is ready. */
  lemma SettledReadyIff(e: Env, infra: string, v: View, x: View)
    requires Leads(e, infra, v, x) && Settled(e, infra, x)
    ensures Ready(x.kept) <==>
            && (Unattended(e) ==> x.kept.tagsCond != CondFalse)
            && (PrivateDnsActive(e) ==> x.kept.recordCond != CondFalse)
            && (v.kept.serviceCond != CondFalse || x.serviceWrites != v.serviceWrites)
    ensures Unattended(e) ==>
      x.kept.tagsCond == v.kept.tagsCond || (v.kept.tagsCond == CondTrue && x.kept.tagsCond == CondFalse)
    ensures PrivateDnsActive(e) ==>
      x.kept.recordCond == v.kept.recordCond || (v.kept.recordCond == CondTrue && x.kept.recordCond == CondFalse)
    ensures (Unattended(e) ==> v.kept.tagsCond != CondTrue)
            && (PrivateDnsActive(e) ==> v.kept.recordCond != CondTrue) ==>
      (Ready(x.kept) <==>
        && (Unattended(e) ==> v.kept.tagsCond != CondFalse) && (PrivateDnsActive(e) ==> v.kept.recordCond != CondFalse)
        && (v.kept.serviceCond != CondFalse || x.serviceWrites != v.serviceWrites))
  {
    hide Safe, HasFailed, FastPath, Promising, InputsCurrent, HasEndpoint, Stuck, Ready, GroupDone, EndpointReady,
         BelowZoneDone;
    ReadyIff(e, x.kept, x);
  }

  lemma RecoveryMeans(e: Env, infra: string, v: View, x: View)
    requires Leads(e, infra, v, x)
    ensures Settled(e, infra, x) && FastPath(e, v.kept.(infra := infra), v) ==>
      && FastPath(e, x.kept.(infra := infra), x)
      && (!PrivateDnsActive(e) ==> RecordHolds(x.kept, x.zones))
    ensures Settled(e, infra, x) ==>
      (Ready(x.kept) <==>
        && (Unattended(e) ==> x.kept.tagsCond != CondFalse) && (PrivateDnsActive(e) ==> x.kept.recordCond != CondFalse)
        && (v.kept.serviceCond != CondFalse || x.serviceWrites != v.serviceWrites))
    ensures HasFailed(e, infra, v) ==> HasFailed(e, infra, x) && !AllDone(e, x.kept, x)
    ensures Stuck(e, v.kept, v.zones) ==> Stuck(e, x.kept, x.zones) && !AllDone(e, x.kept, x)
  {
    hide Safe, Settled, FastPath, HasFailed, AllDone, Promising, Ready, Leads, RecordHolds, Stuck, Unattended;
    if Stuck(e, v.kept, v.zones) {
      LeadsToStuck(e, infra, v, x);
    }
    LeadsToRecord(e, infra, v, x);
    if HasFailed(e, infra, v) {
      LeadsToFailed(e, infra, v, x);
    }
    if Settled(e, infra, x) {
      SettledReadyIff(e, infra, v, x);
    }
  }

  /** Any schedule at all, then two quiet minutes in which the surroundings are put right, then four reconciles, then
      any number more. `mid` is where the schedule led to, two minutes later, and `end` what the four reconciles made of
      it. All is done, and stays as it is with every further reconcile succeeding, exactly when no endpoint of the CR
      had failed and the recorded zone, if any, could be used. */
  method Recover(r: VpcEndpointReconciler, schedule: seq<Action>, pauses: seq<nat>, ghost infra: string)
    returns (ghost mid: Moment, ghost end: View, failures: nat)
    requires r.k8s.present && !r.k8s.stored.deleting && Safe(CrEnv(r, infra), infra, r.ViewOf())
    requires NeverDeleted(schedule) && forall a | a in schedule :: Admissible(a, CrEnv(r, infra), infra)
    modifies r, r.k8s, r.aws
    ensures Safe(mid.e, infra, mid.v)
    ensures Hopeful(mid.e, infra, mid.v) ==>
      (AllDone(mid.e, end.kept, end) <==> !HasFailed(mid.e, infra, mid.v) && !Stuck(mid.e, mid.v.kept, mid.v.zones))
    ensures Hopeful(mid.e, infra, mid.v) && AllDone(mid.e, end.kept, end) ==>
      && Settled(CrEnv(r, infra), infra, r.ViewOf()) && r.k8s.status == end.kept && failures == 0
      && r.aws.mutations == end.mutations && r.k8s.serviceWrites == end.serviceWrites
      && (Ready(r.k8s.status) <==>
            && (Unattended(mid.e) ==> r.k8s.status.tagsCond != CondFalse)
            && (PrivateDnsActive(mid.e) ==> r.k8s.status.recordCond != CondFalse)
            && (mid.v.kept.serviceCond != CondFalse || r.k8s.serviceWrites != mid.v.serviceWrites))
      && (FastPath(mid.e, mid.v.kept.(infra := infra), mid.v) && !PrivateDnsActive(mid.e) ==>
            RecordHolds(end.kept, end.zones))
    ensures HasFailed(mid.e, infra, mid.v) ==> HasFailed(mid.e, infra, end)
    ensures Stuck(mid.e, mid.v.kept, mid.v.zones) ==> Stuck(mid.e, end.kept, end.zones)
  {
    hide Safe, Admissible, NeverDeleted, Settled, Hopeful, HasFailed, FastPath, Leads, AllDone, Promising, CacheExact,
         Stuck, Ready, Unattended;
    ghost var stray := Operate(r, schedule, infra);
    ghost var e, v := CrEnv(r, infra), r.ViewOf();
    r.aws.budget, r.k8s.budget := 0, 0;
    r.aws.now := r.aws.now + TTL;
    mid := Moment(CrEnv(r, infra), r.ViewOf());
    QuietTime(e, mid.e, infra, v, mid.v);
    Settle(r, infra);
    end := r.ViewOf();
    RecoveryMeans(mid.e, infra, mid.v, end);
    failures := StaySettled(r, pauses, infra);
  }

  // ---- an example ----

  /** A CR that names its zone, lists its subnet and asks for no rules. */
  function ExampleEnv(): Env {
    var dns := DnsSpec(false, 1, "", None, [], "api", "svc");
    var vpc := VpcSpec(false, [3], [7], [], []);
    var catalog := Catalog([Vpc(7, map[])], [Subnet(3, "az1", 7, map[])], map[], [], map[], 60, Pending);
    var lookups := Lookups(Some("c1"), None, None, Some("region"), true, {}, Some("example.org"), None, None);
    Env("cr", Spec("com.svc", "", false, "", None, [], [], false, false, vpc, dns), false, ClusterKey("c1"), catalog,
      lookups, 1000, false)
  }

  /** Everything is in place; the condition of the service is what it is. */
  function ExampleView(service: Condition): View {
    var e := ExampleEnv();
    var record := RecordName(e.spec.dns.hostname, NewZone("example.com", 7).name);
    var st := Status("c1", "com.svc", 7, 4, 5, Prefixed(1), record, CondTrue, CondTrue, CondTrue, Unset, service);
    var group := Group(7, DefaultTags(GroupTag(e, InfraStatus("c1")), e.cluster), []);
    var endpoint :=
      Endpoint(7, DefaultTags(EndpointTag(e, InfraStatus("c1")), e.cluster), "com.svc", Available, {3}, {4}, false);
    var zone := WithRecord(NewZone("example.com", 7), record, EndpointDns(5));
    View(st, st, map[4 := group], 5, map[5 := endpoint], 6, map[1 := zone], 2, map[], {}, {}, Some(record), 0, 0, 0, 0,
      0, 0, 0)
  }

  lemma ExampleTags(service: Condition)
    ensures var e, st := ExampleEnv(), ExampleView(service).kept;
            GroupTag(e, st) == GroupTag(e, InfraStatus("c1")) && EndpointTag(e, st) == EndpointTag(e, InfraStatus("c1"))
  {
  }

  lemma ExampleIsSafe(service: Condition)
    ensures Safe(ExampleEnv(), "c1", ExampleView(service))
      && Calm(ExampleEnv(), ExampleView(service).kept, ExampleView(service))
  {
    ExampleTags(service);
    hide GroupTag, EndpointTag;
    assert ExampleView(service).kept.(infra := "c1") == ExampleView(service).kept;
  }

  lemma ExampleIsHealthy(service: Condition)
    ensures Healthy(ExampleEnv(), ExampleView(service).kept, ExampleView(service).zones)
  {
    hide GroupTag, EndpointTag;
  }

  lemma ExampleIsDone(service: Condition)
    ensures AllDone(ExampleEnv(), ExampleView(service).kept, ExampleView(service))
  {
    ExampleTags(service);
    hide GroupTag, EndpointTag;
  }

  lemma ExampleIsTrue(service: Condition)
    ensures FastPath(ExampleEnv(), ExampleView(service).kept, ExampleView(service))
  {
    ExampleTags(service);
    hide GroupTag, EndpointTag, RecordName;
  }

  /** A settled CR, and one whose service is right but whose service condition was set to False by a read that failed:
      it is not ready, and with nothing left to do it never will be. */
  lemma SettledExample(service: Condition)
    ensures Settled(ExampleEnv(), "c1", ExampleView(service)) && !HasFailed(ExampleEnv(), "c1", ExampleView(service))
    ensures FastPath(ExampleEnv(), ExampleView(service).kept, ExampleView(service))
    ensures Ready(ExampleView(service).kept) <==> service != CondFalse
  {
    hide GroupTag, EndpointTag, Safe, AllDone, Healthy, FastPath, Calm, RecordTrue;
    ExampleIsTrue(service);
    var e, v := ExampleEnv(), ExampleView(service);
    ExampleIsSafe(service);
    ExampleIsHealthy(service);
    ExampleIsDone(service);
    forall st | InputsFilled(e.spec, e.lookups, v.kept, st) && InputsCurrent(e, st, "c1")
      ensures WithInputs(v.kept, st) == v.kept
    {
      SameWhenCurrent(e, "c1", v.kept, st);
    }
    ReadyIff(e, v.kept, v);
  }

  // ---- examples of what does not settle ----

  /** The example's CR with another DNS configuration. */
  function ExampleWith(dns: DnsSpec): Env {
    ExampleEnv().(spec := ExampleEnv().spec.(dns := dns))
  }

  const NAMED := DnsSpec(false, NO_ID, "example.com", None, [], "api", "svc")
  const UNNAMED := DnsSpec(false, NO_ID, "", None, [], "api", "svc")

  /** All that the CR needs of others is there. */
  lemma ExampleIsPromising(dns: DnsSpec, v: View)
    requires dns.domainRef == None && dns.associated == []
    requires Safe(ExampleWith(dns), "c1", v) && Calm(ExampleWith(dns), v.kept, v)
    requires v.kept.infra == "c1" && v.kept.vpc == 7 && v.kept.service == "com.svc"
    requires ZoneOffered(dns, v.kept, v.zones, ExampleEnv().lookups)
    ensures Promising(ExampleWith(dns), "c1", v)
  {
    hide Safe, Calm, ZoneOffered, ModeOf;
    var e := ExampleWith(dns);
    forall st | InputsFilled(e.spec, e.lookups, v.kept, st) && InputsCurrent(e, st, "c1")
      ensures WithInputs(v.kept, st) == v.kept
    {
      SameWhenCurrent(e, "c1", v.kept, st);
    }
  }

  /** One step of the environment away from being settled: the endpoint has failed. (`StayFailed`) */
  lemma FailedExample(service: Condition)
    ensures var e, v := ExampleEnv(), Acted(ExampleEnv(), ExampleView(service), EndpointTurns(5, Failed));
            Promising(e, "c1", v) && HasFailed(e, "c1", v) && !Stuck(e, v.kept, v.zones)
  {
    hide GroupTag, EndpointTag, Safe;
    var e, v := ExampleEnv(), Acted(ExampleEnv(), ExampleView(service), EndpointTurns(5, Failed));
    ExampleIsSafe(service);
    ActionKeepsSafe(e, "c1", ExampleView(service), EndpointTurns(5, Failed));
    assert e == ExampleWith(e.spec.dns);
    ExampleIsPromising(e.spec.dns, v);
    ExampleTags(service);
    assert 5 in v.endpoints;
  }

  /** Another: a rule was added to the spec, twice. (`Runs.StayRefused`) */
  lemma RepeatedRuleExample(service: Condition, rule: RuleSpec)
    requires rule.cidr != ""
    ensures var spec := ExampleEnv().spec.(ingress := [rule, rule]);
            var e, v := EnvAfter(EditSpec(spec), ExampleEnv()), ExampleView(service);
            Safe(e, "c1", v) && RulesRefused(e, v.kept, v.groups) && !RulesHealthy(e.spec, v.kept.vpc, e.catalog)
  {
    hide GroupTag, EndpointTag, Safe;
    var e := EnvAfter(EditSpec(ExampleEnv().spec.(ingress := [rule, rule])), ExampleEnv());
    var v := ExampleView(service);
    ExampleIsSafe(service);
    ActionKeepsSafe(ExampleEnv(), "c1", v, EditSpec(e.spec));
    assert Acted(ExampleEnv(), v, EditSpec(e.spec)) == v;
    TwiceIsRefused(rule, Groups.SourcesOf(e.spec, v.kept, e.catalog));
    hide Missing, Desired;
    assert v.groups[4].rules == [];
  }

  lemma TwiceIsRefused(rule: RuleSpec, src: Sources)
    requires rule.cidr != ""
    ensures !NoDuplicates(Desired([rule, rule], false, src))
      && !NoDuplicates(Missing(Desired([rule, rule], false, src), []))
  {
    var p := RuleFor(rule, false, Cidr(rule.cidr));
    assert [rule, rule][..1] == [rule];
    assert Desired([rule], false, src) == [p] && Desired([rule, rule], false, src) == [p, p];
    assert [p, p][0] == [p, p][1] && RepeatedAmongMissing([p, p], [], 0, 1);
    RequestIsAcceptable([p, p], []);
  }

  /** Another: the CR named its zone by id, and now names the zone's domain instead. (`StayStuck`) */
  lemma RespelledZoneExample(service: Condition)
    ensures var e, v := EnvAfter(EditSpec(ExampleWith(NAMED).spec), ExampleEnv()), ExampleView(service);
            Safe(e, "c1", v) && Promising(e, "c1", v) && Stuck(e, v.kept, v.zones)
              && Serves(v.zones[1], NAMED.domainName)
  {
    hide GroupTag, EndpointTag, Safe;
    var a := EditSpec(ExampleWith(NAMED).spec);
    ExampleIsSafe(service);
    ActionKeepsSafe(ExampleEnv(), "c1", ExampleView(service), a);
    assert Acted(ExampleEnv(), ExampleView(service), a) == ExampleView(service);
    ExampleIsPromising(NAMED, ExampleView(service));
  }

  lemma SafeWithZone(e: Env, infra: string, v: View, zone: ZoneRef)
    requires Safe(e, infra, v) && zone != NoZone
    ensures var st := v.kept.(zone := zone); Safe(e, infra, v.(kept := st, status := st))
  {
    hide Groups.GroupsInv, EndpointsInv, Witnessed, Accounted, InfraOf;
    var st := v.kept.(zone := zone);
    GroupTagOf(e, v.kept, infra);
    GroupTagOf(e, st, infra);
    hide GroupTag, EndpointTag;
  }

  /** The example's CR when it has recorded its zone as the domain mode spells it. */
  function ByDomainView(service: Condition): View {
    var st := ExampleView(service).kept.(zone := Bare(1));
    ExampleView(service).(kept := st, status := st)
  }

  lemma ByDomainIsSafe(service: Condition)
    ensures Safe(ExampleWith(NAMED), "c1", ByDomainView(service))
  {
    hide GroupTag, EndpointTag, Safe;
    var a := EditSpec(ExampleWith(NAMED).spec);
    ExampleIsSafe(service);
    ActionKeepsSafe(ExampleEnv(), "c1", ExampleView(service), a);
    assert Acted(ExampleEnv(), ExampleView(service), a) == ExampleView(service);
    SafeWithZone(ExampleWith(NAMED), "c1", ExampleView(service), Bare(1));
  }

  /** A CR that names the domain and has recorded its zone, until that is deleted. (`StayStuck`) */
  lemma GoneZoneExample(service: Condition)
    ensures var e, v := ExampleWith(NAMED), ByDomainView(service);
            var w := Acted(e, v, ZoneVanishes(1));
            Safe(e, "c1", v) && !Stuck(e, v.kept, v.zones) && Promising(e, "c1", w) && StuckForGood(e, w)
  {
    hide GroupTag, EndpointTag, RecordName, NewZone, Safe, DomainOf;
    var e, v := ExampleWith(NAMED), ByDomainView(service);
    ByDomainIsSafe(service);
    ActionKeepsSafe(e, "c1", v, ZoneVanishes(1));
    ExampleIsPromising(NAMED, Acted(e, v, ZoneVanishes(1)));
  }

  /** The service name was edited: once that is recorded the CR is settled, with the endpoint for the other service. */
  lemma EditedServiceExample(service: Condition)
    ensures var a := EditSpec(ExampleEnv().spec.(serviceName := "new.svc"));
            var e, st := EnvAfter(a, ExampleEnv()), ExampleView(service).kept.(service := "new.svc");
            var v := ExampleView(service).(kept := st, status := st);
            && Admissible(a, ExampleEnv(), "c1") && InputsFilled(e.spec, e.lookups, ExampleView(service).kept, st)
            && Settled(e, "c1", v) && v.endpoints[5].service == "com.svc" && v.kept.endpoint == 5
  {
    hide GroupTag, EndpointTag, RecordName, NewZone;
    var a := EditSpec(ExampleEnv().spec.(serviceName := "new.svc"));
    var e, st := EnvAfter(a, ExampleEnv()), ExampleView(service).kept.(service := "new.svc");
    var v := ExampleView(service).(kept := st, status := st);
    EditedIsSafe(service);
    EditedIsDone(service);
    hide Safe, AllDone;
    forall st' | InputsFilled(e.spec, e.lookups, v.kept, st') && InputsCurrent(e, st', "c1")
      ensures WithInputs(v.kept, st') == v.kept
    {
      SameWhenCurrent(e, "c1", v.kept, st');
    }
  }

  lemma EditedIsSafe(service: Condition)
    ensures var e, st := ExampleEnv().(spec := ExampleEnv().spec.(serviceName := "new.svc")),
                         ExampleView(service).kept.(service := "new.svc");
            Safe(e, "c1", ExampleView(service).(kept := st, status := st))
  {
    hide GroupTag, EndpointTag, Groups.GroupsInv, EndpointsInv, Witnessed, Accounted;
    ExampleIsSafe(service);
    var st := ExampleView(service).kept.(service := "new.svc");
    GroupTagOf(ExampleEnv(), ExampleView(service).kept, "c1");
    GroupTagOf(ExampleEnv().(spec := ExampleEnv().spec.(serviceName := "new.svc")), st, "c1");
    GroupTagOf(ExampleEnv(), st, "c1");
    SameTagsForSpec(ExampleEnv(), "new.svc");
  }

  lemma SameTagsForSpec(e: Env, name: string)
    ensures var e' := e.(spec := e.spec.(serviceName := name));
            forall st :: GroupTag(e', st) == GroupTag(e, st) && EndpointTag(e', st) == EndpointTag(e, st)
  {
  }

  /** What is left to do does not depend on the service where the spec lists its subnets. */
  lemma DoneForAnyService(e: Env, v: View, name: string)
    requires AllDone(e, v.kept, v) && !e.spec.vpc.autoDiscover
    ensures var e', st := e.(spec := e.spec.(serviceName := name)), v.kept.(service := name);
            AllDone(e', st, v.(kept := st, status := st))
  {
    hide Missing, Desired, Naming.GenerateName, ModeOf, IsClusterZone, BelowZoneDone;
    var e', st := e.(spec := e.spec.(serviceName := name)), v.kept.(service := name);
    assert BelowZoneDone(e.spec.dns, v.kept, v.zones, v.service) ==>
      BelowZoneDone(e.spec.dns, st, v.zones, v.service) by {
      BelowIgnoresService(e.spec.dns, v.kept, st, v.zones, v.service);
    }
  }

  lemma BelowIgnoresService(dns: DnsSpec, st: Status, st': Status, zones: map<Id, Zone>, service: Option<string>)
    requires st' == st.(service := st'.service)
    ensures BelowZoneDone(dns, st, zones, service) == BelowZoneDone(dns, st', zones, service)
  {
  }

  lemma EditedIsDone(service: Condition)
    ensures var e, st := ExampleEnv().(spec := ExampleEnv().spec.(serviceName := "new.svc")),
                         ExampleView(service).kept.(service := "new.svc");
            AllDone(e, st, ExampleView(service).(kept := st, status := st))
  {
    ExampleIsDone(service);
    hide AllDone, GroupTag, EndpointTag, RecordName, NewZone;
    DoneForAnyService(ExampleEnv(), ExampleView(service), "new.svc");
  }

  /** A new CR without a DNS mode. (`StayStuck`) */
  lemma NoModeExample()
    ensures var e, st := ExampleWith(UNNAMED), NO_STATUS.(infra := "c1", vpc := 7, service := "com.svc");
            var v := View(st, st, map[], 1, map[], 1, map[], 1, map[], {}, {}, None, 0, 0, 0, 0, 0, 0, 0);
            Promising(e, "c1", v) && !HasFailed(e, "c1", v) && Stuck(e, v.kept, v.zones) && v.kept.recordCond == Unset
  {
    hide GroupTag, EndpointTag;
    var e, st := ExampleWith(UNNAMED), NO_STATUS.(infra := "c1", vpc := 7, service := "com.svc");
    var v := View(st, st, map[], 1, map[], 1, map[], 1, map[], {}, {}, None, 0, 0, 0, 0, 0, 0, 0);
    assert st.(infra := "c1") == st;
    assert Safe(e, "c1", v);
    hide Safe;
    ExampleIsPromising(UNNAMED, v);
  }
}
