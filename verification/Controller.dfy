/** Reconcile: the finalizer protocol around the validations and the cleanup. */
module Controller {
  import opened Aws
  import opened Kube
  import opened Reconciler
  import opened HostedZoneCache
  import opened DnsStage
  import opened EndpointStage
  import opened ClusterInfo
  import opened Cleanup
  import opened Validation
  import Groups = SecurityGroupStage
  import Naming

  /** What Reconcile answers: nothing more to do, come back later, or an error, which is retried with a growing
      delay. */
  datatype Outcome = Stop | RequeueAfter(seconds: nat) | Retry(error: Error)

  function ClusterKey(infra: string): string {
    Naming.LEGACY_CLUSTER_TAG_PREFIX + "/" + infra
  }

  /** What a reconcile of the persisted CR takes as given when the cluster's infra id is `infra`. */
  ghost function CrEnv(r: VpcEndpointReconciler, infra: string): Env
    reads r, r.aws, r.k8s
  {
    Env(r.k8s.stored.name, r.k8s.stored.spec, r.k8s.stored.deleting, ClusterKey(infra), r.aws.catalog, r.k8s.lookups,
      r.aws.now, r.enablePrivateDns)
  }

  /** Every infra id that can be read, or has been recorded, is the same. */
  predicate InfraIs(e: Env, st: Status, infra: string) {
    && infra != "" && e.cluster == ClusterKey(infra)
    && (InfraOf(e.spec.dns, e.lookups).Some? ==> InfraOf(e.spec.dns, e.lookups).value == infra)
    && (st.infra == "" || st.infra == infra)
  }

  /** What holds of the persisted status and AWS between reconciles. */
  ghost predicate Safe(e: Env, infra: string, v: View) {
    && InfraIs(e, v.kept, infra)
    && AtMostOne(e, v.kept.(infra := infra), v)
    && RecordNamed(v.kept) && (v.kept.recordCond == CondTrue ==> v.kept.vpc != NO_ID)
    // the zone cache: every entry is an answer AWS once gave, and differs from what AWS would answer now exactly in
    // the changes that went unseen
    && Witnessed(v.cache, v.answers) && CacheKnown(e, v)
  }

  // ---- reading the CR ----

  /** What parseClusterInfo has changed. */
  ghost predicate ParseStep(e: Env, v: View, p: View) {
    && p == v.(status := p.status, kept := p.kept, awsBudget := p.awsBudget, failedWrites := p.failedWrites,
          k8sBudget := p.k8sBudget)
    && Spends(v, p)
    && Filled(e.spec, e.lookups, v.kept, p.status) && Filled(e.spec, e.lookups, v.kept, p.kept)
    && (p.kept.vpc == v.kept.vpc || p.kept.vpc == p.status.vpc)
  }

  /** A VPC recorded for a CR that had none finds no resources of the CR anywhere. */
  lemma ParseKeepsSafe(e: Env, infra: string, v: View, p: View)
    requires Safe(e, infra, v) && ParseStep(e, v, p)
    ensures Safe(e, infra, p)
  {
    hide InfraOf, ServiceOf, Witnessed, Accounted, Naming.GenerateName;
  }

  /** parseClusterInfo on the CR as persisted. */
  method ReadCr(r: VpcEndpointReconciler, ghost infra: string) returns (res: Result<()>)
    requires r.Synced()
    modifies r`status, r`clusterTag, r`clientReady, r.k8s`status, r.k8s`failedWrites, r.k8s`budget, r.aws`budget
    ensures ParseStep(CrEnv(r, infra), old(r.ViewOf()), r.ViewOf())
    ensures res.Ok? ==> r.Synced() && r.Parsed() && r.status.infra != "" && r.status.service != ""
    ensures res.Ok? && r.k8s.budget == old(r.k8s.budget) && ServiceOf(r.vpce.spec, r.k8s.lookups).Some? ==>
      ServiceOf(r.vpce.spec, r.k8s.lookups).value == r.status.service
    ensures res.Ok? && r.status.vpc != old(r.status.vpc) ==>
      Allowed(r.status.vpc, r.vpce.spec.vpc, r.aws.catalog, r.aws.endpoints, ClusterKey(r.status.infra))
    ensures Readable(r) && r.aws.budget <= old(r.aws.budget)
      && Spent(old(r.k8s.budget), old(r.k8s.failedWrites), r.k8s.budget, r.k8s.failedWrites)
    ensures res.Err? && r.aws.budget == old(r.aws.budget) && r.k8s.budget == old(r.k8s.budget) ==>
      !ParseHealthy(r.vpce.spec, old(r.status), r.k8s.lookups, r.aws.catalog)
    ensures res.Ok? || (r.clientReady && !old(r.clientReady)) ==> ClientAvailable(r.vpce.spec, r.k8s.lookups)
  {
    hide ParseHealthy, ServiceOf, InfraOf, Allowed, ClientAvailable;
    res := ParseClusterInfo(r);
  }

  // ---- a CR that is not being deleted ----

  ghost function Loaded(v: View, infra: string): View {
    v.(status := v.kept.(infra := infra))
  }

  function WithInputs(st: Status, st': Status): Status {
    st.(infra := st'.infra, service := st'.service, vpc := st'.vpc)
  }

  /** parseClusterInfo has nothing new to record. */
  predicate InputsCurrent(e: Env, st: Status, infra: string) {
    st.infra == infra && st.vpc != NO_ID && st.service != ""
      && (ServiceOf(e.spec, e.lookups).Some? ==> ServiceOf(e.spec, e.lookups).value == st.service)
  }

  /** The VPC that was recorded is one the spec allows. */
  predicate VpcPlaced(e: Env, v: View, w: View) {
    v.kept.vpc == NO_ID ==> Allowed(w.kept.vpc, e.spec.vpc, e.catalog, v.endpoints, e.cluster)
  }

  /** What a reconcile of a CR that is not being deleted promises, wherever it stops. */
  ghost predicate LiveRel(e: Env, infra: string, v: View, w: View) {
    var st := v.kept;
    && Spends(v, w)
    && InputsFilled(e.spec, e.lookups, st, w.kept)
    && (Safe(e, infra, v) ==> Safe(e, infra, w))
    && (Safe(e, infra, v) && RecordUndisturbed(e, Loaded(v, infra), w) && RecordTrue(st, v.zones) ==>
          RecordTrue(w.kept, w.zones))
    && (Safe(e, infra, v) && w.failedWrites == v.failedWrites && FastPath(e, st.(infra := infra), v) ==>
          FastPath(e, w.kept.(infra := infra), w))
    && (Calm(e, st, v) && w.lost == v.lost ==> Calm(e, w.kept, w))
    // a CR that is done is left alone, even if calls fail
    && (Calm(e, st, v) && InputsCurrent(e, st, infra) && AllDone(e, st, v) ==>
          && w.mutations == v.mutations && w.serviceWrites == v.serviceWrites
          && (NoFaults(v, w) ==> w.kept == st))
    // without faults, the CR is done, or its group has just appeared, or its endpoint is not ready
    && (NoFaults(v, w) && Calm(e, st, v) && ParseHealthy(e.spec, st, e.lookups, e.catalog)
          && Healthy(e, WithInputs(st, w.kept), v.zones) ==>
          && Healthy(e, w.kept, w.zones) && w.kept.group in w.groups
          && (GroupAppeared(Loaded(v, infra), w) || Waiting(w.kept, w.endpoints) || AllDone(e, w.kept, w)))
    && (NoFaults(v, w) && ParseHealthy(e.spec, st, e.lookups, e.catalog) ==>
          InputsCurrent(e, w.kept, infra) && VpcPlaced(e, v, w))
    && (NoFaults(v, w) && ParseHealthy(e.spec, st, e.lookups, e.catalog) && RulesHealthy(e.spec, w.kept.vpc, e.catalog)
          && st.group in v.groups ==>
          StateFollows(e, Loaded(v, infra), w))
    && (NoFaults(v, w) ==> StateFollows(e, Loaded(v, infra), w) || EndpointUntouched(Loaded(v, infra), w))
    && (w.k8sBudget == v.k8sBudget ==> ServiceFollows(Loaded(v, infra), w))
    && Traces(e, infra, v, w)
  }

  /** What became of the zones and of the conditions that the CR's mode does not maintain. */
  ghost predicate Traces(e: Env, infra: string, v: View, w: View) {
    && (Stuck(e, v.kept, v.zones) ==>
          w.kept.zone == v.kept.zone && w.zones.Keys == v.zones.Keys && NoNewRecord(e.spec.dns, v.kept, w.kept))
    && CondsFollow(e, v.kept, w.kept)
    && v.nextZone <= w.nextZone && (Safe(e, infra, v) ==> ZoneHistory(e, v, w))
    && (Safe(e, infra, v) ==> EndpointsMade(e, Loaded(v, infra), w))
    && (w.nextEndpoint != v.nextEndpoint ==> w.kept.service != "")
    && (RulesRefused(e, v.kept, v.groups) ==> w.kept.group == v.kept.group && RulesRefused(e, w.kept, w.groups))
  }

  /** Whether it succeeds: not while the recorded zone cannot be used, but always when there is nothing left to do. */
  ghost predicate AnswerRel(e: Env, infra: string, v: View, w: View, ok: bool) {
    var st := v.kept;
    && (ok && Calm(e, st, v) && Stuck(e, st, v.zones) ==> Forgotten(e.spec.dns, st))
    && (NoFaults(v, w) && Calm(e, st, v) && NothingToDo(e, infra, v) ==> ok)
    && (ok ==> !RulesRefused(e, st, v.groups) && NotFailed(w.kept.endpoint, w.endpoints))
  }

  ghost predicate NothingToDo(e: Env, infra: string, v: View) {
    && ParseHealthy(e.spec, v.kept, e.lookups, e.catalog) && InputsCurrent(e, v.kept, infra)
    && Healthy(e, v.kept, v.zones) && AllDone(e, v.kept, v)
  }

  lemma FastPathAfterReading(e: Env, infra: string, v: View, p: View, st: Status)
    requires ParseStep(e, v, p) && (v.kept.recordCond == CondTrue ==> v.kept.vpc != NO_ID)
    requires FastPath(e, v.kept.(infra := infra), v) && (st == p.kept || st == p.status)
    ensures FastPath(e, st.(infra := infra), p)
  {
    hide InfraOf, ServiceOf, Accounted, Naming.GenerateName, RecordName;
  }

  /** A reconcile that only got as far as reading the CR. */
  lemma ReadingIsLive(e: Env, infra: string, v: View, w: View)
    requires InfraIs(e, v.kept, infra) && ParseStep(e, v, w) && NoZone !in v.cache
    requires NoFaults(v, w) ==> !ParseHealthy(e.spec, v.kept, e.lookups, e.catalog)
    ensures LiveRel(e, infra, v, w)
  {
    hide Safe, Healthy, ParseHealthy, AllDone, InfraOf, ServiceOf, Calm, DnsCalm, ZonePinned, FirstSeenUnsettled,
         FastPath, StateFollows, ZoneHistory;
    ZonesUntouched(e, v, v, w);
    if Safe(e, infra, v) {
      SafeMeans(e, infra, v);
      ParseKeepsSafe(e, infra, v, w);
      if FastPath(e, v.kept.(infra := infra), v) {
        FastPathAfterReading(e, infra, v, w, w.kept);
      }
    }
    if Calm(e, v.kept, v) {
      CalmFollows(e, v.kept, w.kept, v, w);
    }
  }

  lemma ErrorAnswers(e: Env, infra: string, v: View, w: View)
    requires NoFaults(v, w) ==> !ParseHealthy(e.spec, v.kept, e.lookups, e.catalog)
    ensures AnswerRel(e, infra, v, w, false)
  {
    hide ParseHealthy, Healthy, AllDone, Calm;
  }

  lemma SafeMeans(e: Env, infra: string, v: View)
    requires Safe(e, infra, v)
    ensures v.kept.recordCond == CondTrue ==> v.kept.vpc != NO_ID
    ensures ZoneIds(v.zones, v.nextZone) && CacheKnown(e, v) && Witnessed(v.cache, v.answers) && RecordNamed(v.kept)
    ensures NoZone !in v.cache && AtMostOne(e, v.kept.(infra := infra), v)
  {
  }

  /** The pass keeps what holds between reconciles. */
  lemma PassKeepsSafe(e: Env, infra: string, v: View, p: View, w: View, ok: bool)
    requires InfraIs(e, v.kept, infra) && ParseStep(e, v, p) && PassRel(e, p, w, ok)
    requires p.status == p.kept && p.kept.infra == infra && p.kept.vpc != NO_ID
    requires Safe(e, infra, v)
    ensures Safe(e, infra, w)
    ensures RecordUndisturbed(e, Loaded(v, infra), w) && RecordTrue(v.kept, v.zones) ==> RecordTrue(w.kept, w.zones)
    ensures w.failedWrites == v.failedWrites && FastPath(e, v.kept.(infra := infra), v) ==>
      FastPath(e, w.kept.(infra := infra), w)
  {
    hide AtMostOne, Healthy, AllDone, InfraOf, ServiceOf, Calm, DnsCalm, FirstSeenUnsettled, Witnessed, ZoneIds,
         ZonePinned, EndpointTag, FastPath, CacheKnown, StateFollows;
    if w.failedWrites == v.failedWrites && FastPath(e, v.kept.(infra := infra), v) {
      SafeMeans(e, infra, v);
      FastPathAfterReading(e, infra, v, p, p.kept);
    }
    ParseKeepsSafe(e, infra, v, p);
    SafeMeans(e, infra, v);
    assert p.kept.(infra := infra) == p.kept && w.kept.(infra := infra) == w.kept;
    if RecordUndisturbed(e, Loaded(v, infra), w) {
      UndisturbedFollows(e, infra, v, p, w);
    }
  }

  lemma UndisturbedFollows(e: Env, infra: string, v: View, p: View, w: View)
    requires ParseStep(e, v, p) && p.status == p.kept && p.kept.infra == infra
    requires p.failedWrites <= w.failedWrites && (v.kept.recordCond == CondTrue ==> v.kept.vpc != NO_ID)
    requires RecordUndisturbed(e, Loaded(v, infra), w)
    ensures RecordUndisturbed(e, p, w)
  {
    hide InfraOf, ServiceOf, Naming.GenerateName;
  }

  lemma PassIsLive(e: Env, infra: string, v: View, p: View, w: View, ok: bool)
    requires InfraIs(e, v.kept, infra) && ParseStep(e, v, p) && PassRel(e, p, w, ok)
    requires p.status == p.kept && p.kept.infra == infra && p.kept.vpc != NO_ID && p.kept.service != ""
    requires NoFaults(v, p) ==> InputsCurrent(e, p.kept, infra) && VpcPlaced(e, v, p)
    ensures LiveRel(e, infra, v, w)
  {
    hide FastPath, Safe, AtMostOne, Healthy, ParseHealthy, AllDone, InfraOf, Calm, DnsCalm, ZonePinned,
         FirstSeenUnsettled, RecordUndisturbed, RecordTrue, Allowed, CacheKnown, StateFollows, ZoneHistory, CondsFollow,
         Stuck, Traces;
    hide Witnessed, ZoneIds, EndpointTag, Waiting, RulesHealthy;
    if Safe(e, infra, v) {
      PassKeepsSafe(e, infra, v, p, w, ok);
    }
    if Calm(e, v.kept, v) {
      CalmFollows(e, v.kept, p.kept, v, p);
      if InputsCurrent(e, v.kept, infra) {
        assert p.kept == v.kept;
        AllDoneFollows(e, v.kept, v, p);
      }
    }
    assert WithInputs(v.kept, w.kept) == p.kept;
    PassTraces(e, infra, v, p, w, ok);
    if StateFollows(e, p, w) {
      StateFollowsFromLoaded(e, infra, v, p, w);
    }
  }

  lemma ZonesUntouched(e: Env, v: View, p: View, w: View)
    requires p.zones == v.zones && p.nextZone == v.nextZone
    ensures ZoneHistory(e, p, w) == ZoneHistory(e, v, w)
    ensures w.zones == v.zones && w.nextZone == v.nextZone ==> ZoneHistory(e, v, w)
  {
    hide NoZoneServes, DomainOf;
  }

  lemma PassTraces(e: Env, infra: string, v: View, p: View, w: View, ok: bool)
    requires ParseStep(e, v, p) && PassRel(e, p, w, ok) && p.status == p.kept && p.kept.infra == infra
    requires p.kept.service != ""
    ensures Traces(e, infra, v, w)
  {
    hide FastPath, Safe, AtMostOne, Healthy, AllDone, InfraOf, ServiceOf, Calm, RecordUndisturbed, RecordTrue,
         CacheKnown, StateFollows, ZoneHistory, ZoneStuck, Lowered, Witnessed, ZoneIds, RulesHealthy;
    ZonesUntouched(e, v, p, w);
    MadeFromLoaded(e, infra, v, p, w);
    hide EndpointsMade;
    if Safe(e, infra, v) {
      SafeMeans(e, infra, v);
    }
  }

  lemma MadeFromLoaded(e: Env, infra: string, v: View, p: View, w: View)
    requires p.endpoints == v.endpoints && p.nextEndpoint == v.nextEndpoint && p.status.infra == infra
    ensures EndpointsMade(e, p, w) == EndpointsMade(e, Loaded(v, infra), w)
  {
    hide MadeForCr, Naming.GenerateName;
  }

  /** A pass from what was read answers for what was persisted. */
  lemma PassAnswers(e: Env, infra: string, v: View, p: View, w: View, ok: bool)
    requires InfraIs(e, v.kept, infra) && ParseStep(e, v, p) && PassRel(e, p, w, ok)
    requires p.status == p.kept && p.kept.infra == infra && p.kept.vpc != NO_ID
    requires NoFaults(v, p) ==> InputsCurrent(e, p.kept, infra)
    ensures AnswerRel(e, infra, v, w, ok)
  {
    hide FastPath, Safe, AtMostOne, Healthy, ParseHealthy, AllDone, InfraOf, Calm, DnsCalm, ZonePinned,
         FirstSeenUnsettled, RecordUndisturbed, RecordTrue, Allowed, CacheKnown, StateFollows, ZoneHistory, CondsFollow;
    hide Witnessed, ZoneIds, EndpointTag, Waiting, RulesHealthy, ZoneStuck;
    if Calm(e, v.kept, v) {
      CalmFollows(e, v.kept, p.kept, v, p);
      if NoFaults(v, w) && InputsCurrent(e, v.kept, infra) {
        assert p.kept == v.kept;
        AllDoneFollows(e, v.kept, v, p);
      }
    }
  }

  lemma AllDoneFollows(e: Env, st: Status, v: View, p: View)
    requires p.groups == v.groups && p.endpoints == v.endpoints && p.zones == v.zones && p.service == v.service
    ensures AllDone(e, st, v) == AllDone(e, st, p)
  {
    hide GroupDone, EndpointReady, DnsDone;
  }

  lemma StateFollowsFromLoaded(e: Env, infra: string, v: View, p: View, w: View)
    requires ParseStep(e, v, p) && p.status == p.kept && p.kept.infra == infra && StateFollows(e, p, w)
    ensures StateFollows(e, Loaded(v, infra), w)
  {
    hide InfraOf, ServiceOf, Naming.GenerateName;
  }

  /** The finalizer is persisted before anything else happens. */
  method EnsureFinalizer(r: VpcEndpointReconciler) returns (res: Result<()>)
    requires r.Synced() && !r.vpce.deleting
    modifies r`vpce, r`status, r.k8s`stored, r.k8s`present, r.k8s`budget
    ensures Spent(old(r.k8s.budget), old(r.k8s.failedWrites), r.k8s.budget, r.k8s.failedWrites) && r.k8s.present
    ensures r.status == old(r.status)
    ensures r.k8s.stored == old(r.k8s.stored) || r.k8s.stored == old(r.k8s.stored).(finalizer := true)
    ensures res.Ok? ==> r.Synced() && r.k8s.stored.finalizer && r.k8s.budget == old(r.k8s.budget)
    ensures res.Err? ==> r.k8s.budget < old(r.k8s.budget) && !old(r.vpce.finalizer)
  {
    res := Ok(());
    if !r.vpce.finalizer {
      r.vpce := r.vpce.(finalizer := true);
      res := r.k8s.UpdateFinalizer(true);
      if res.Ok? {
        // the answer carries the persisted object
        r.vpce, r.status := r.k8s.stored, r.k8s.status;
      }
    }
  }

  /** What comes before a pass can only spend faults. */
  lemma FinalizerThenPass(e: Env, p: View, q: View, w: View, ok: bool)
    requires q == p.(k8sBudget := q.k8sBudget) && q.k8sBudget <= p.k8sBudget && PassRel(e, q, w, ok)
    ensures PassRel(e, p, w, ok)
  {
    hide Groups.GroupsInv, EndpointsInv, GroupDone, EndpointReady, DnsDone, DnsCalm, Healthy, ZonePinned, RecordTrue,
         Witnessed, ZoneIds, RulesHealthy;
    hide Waiting, GroupTag, EndpointTag, Accounted;
  }

  lemma FinalizerFailed(e: Env, p: View, w: View)
    requires p.status == p.kept && w == p.(k8sBudget := w.k8sBudget) && w.k8sBudget < p.k8sBudget && NoZone !in p.cache
    ensures PassRel(e, p, w, false)
  {
    hide Healthy, AllDone, ZonePinned, FirstSeenUnsettled, RecordTrue, Witnessed, ZoneIds, StateFollows, RulesHealthy,
         DnsCalm, Accounted;
    hide Groups.GroupsInv, EndpointsInv, GroupTag, EndpointTag;
    if FastPath(e, p.status, p) {
      FastPathFollows(e, p.status, w.kept, p, w);
    }
  }

  /** A reconcile of a CR that is not being deleted, once it has been read. */
  method ReconcileLive(r: VpcEndpointReconciler) returns (out: Outcome, ghost ok: bool)
    requires r.Synced() && r.Parsed() && !r.vpce.deleting
    modifies r`vpce, r`status, r`cache, r`unseen, r.k8s`stored, r.k8s`present, r.k8s`status, r.k8s`failedWrites
    modifies r.k8s`service, r.k8s`serviceWrites, r.k8s`budget
    modifies r.aws`groups, r.aws`nextGroup, r.aws`endpoints, r.aws`nextEndpoint, r.aws`zones, r.aws`authorized
    modifies r.aws`lost, r.aws`nextZone
    modifies r.aws`mutations, r.aws`creations, r.aws`budget, r.aws`answers
    ensures PassRel(old(r.EnvOf()), old(r.ViewOf()), r.ViewOf(), ok)
    ensures r.k8s.stored == old(r.k8s.stored) || r.k8s.stored == old(r.k8s.stored).(finalizer := true)
    ensures r.k8s.present
    // nothing is created before the finalizer is persisted
    ensures r.aws.creations != old(r.aws.creations) ==> r.k8s.stored.finalizer
    ensures ok <==> out == RequeueAfter(15 * 60)
    // a missing record is tried again after a minute once the endpoint is available
    ensures !ok ==>
      out.Retry? || (out == RequeueAfter(60) && r.status.endpointCond == CondTrue && r.status.recordCond != CondTrue)
    ensures !ok && old(r.vpce.finalizer) && r.status.endpointCond == CondTrue && r.status.recordCond != CondTrue ==>
      out == RequeueAfter(60)
  {
    hide PassRel, Naming.GetClusterLegacyTagKey;
    ghost var e, p := r.EnvOf(), r.ViewOf();
    ok := false;
    var finalized := EnsureFinalizer(r);
    if finalized.Err? {
      FinalizerFailed(e, p, r.ViewOf());
      return Retry(finalized.error), false;
    }
    ghost var q := r.ViewOf();
    var validated := ValidateResources(r);
    FinalizerThenPass(e, p, q, r.ViewOf(), validated.Ok?);
    ok := validated.Ok?;
    if validated.Err? {
      if r.status.endpointCond == CondTrue && r.status.recordCond != CondTrue {
        out := RequeueAfter(60);
      } else {
        out := Retry(validated.error);
      }
    } else {
      // only the not-ready metric depends on it
      var ready := IsVpcEndpointReady(Conditions(r.status));
      out := RequeueAfter(15 * 60);
    }
  }

  // ---- a CR that is being deleted ----

  /** An AWS client for the cleanup can be had, if need be without parseClusterInfo. */
  ghost predicate CanCleanUp(e: Env, st: Status) {
    || ParseHealthy(e.spec, st, e.lookups, e.catalog)
    || (e.spec.overrideSecret.Some? && e.spec.region != "" && CredentialsAvailable(e.spec.overrideSecret, e.lookups))
  }

  /** The region and the credentials for AWS can be read. */
  predicate HasCredentials(spec: Spec, l: Lookups) {
    && (spec.region != "" || l.region.Some?)
    && if spec.overrideSecret.Some? then spec.overrideSecret.value in l.secrets else l.credentials
  }

  /** Without cluster information: the override credentials in the region of the spec, else the client that
      parseClusterInfo got to set up. */
  method ClientForCleanup(r: VpcEndpointReconciler, error: Error) returns (res: Result<()>)
    modifies r`clientReady, r.k8s`budget
    ensures Spent(old(r.k8s.budget), old(r.k8s.failedWrites), r.k8s.budget, r.k8s.failedWrites)
    ensures res.Ok? ==> r.clientReady && r.k8s.budget == old(r.k8s.budget)
    ensures res.Ok? ==> old(r.clientReady) || HasCredentials(r.vpce.spec, r.k8s.lookups)
    ensures res.Err? && r.k8s.budget == old(r.k8s.budget) ==>
      if r.vpce.spec.overrideSecret.Some? then
        r.vpce.spec.region == "" || !CredentialsAvailable(r.vpce.spec.overrideSecret, r.k8s.lookups)
      else !old(r.clientReady)
  {
    if r.vpce.spec.overrideSecret.Some? {
      if r.vpce.spec.region == "" {
        return Err(error);
      }
      res := ReadCredentials(r.k8s, r.vpce.spec.overrideSecret);
      if res.Ok? {
        r.clientReady := true;
      }
    } else if !r.clientReady {
      res := Err(error);
    } else {
      res := Ok(());
    }
  }

  lemma TearingKeepsGroups(e: Env, infra: string, p: View, w: View)
    requires Groups.GroupsInv(p.kept.group, p.kept.vpc, p.groups, p.nextGroup, GroupTag(e, p.kept.(infra := infra)),
      e.cluster)
    requires w.groups == p.groups || w.groups == GroupTarget(p.kept, p.groups)
    requires w.nextGroup == p.nextGroup && w.kept.group == p.kept.group
      && (w.kept.vpc == p.kept.vpc || p.kept.vpc == NO_ID)
    ensures Groups.GroupsInv(w.kept.group, w.kept.vpc, w.groups, w.nextGroup, GroupTag(e, w.kept.(infra := infra)),
      e.cluster)
  {
    assert GroupTag(e, w.kept.(infra := infra)) == GroupTag(e, p.kept.(infra := infra));
    hide Naming.GenerateName;
  }

  lemma TearingKeepsEndpoints(e: Env, infra: string, p: View, w: View)
    requires EndpointsInv(p.kept.endpoint, p.kept.vpc, p.endpoints, p.nextEndpoint,
      EndpointTag(e, p.kept.(infra := infra)), e.cluster)
    requires OnlyDeleting(p.endpoints, w.endpoints, p.kept.endpoint) && NO_ID !in w.endpoints
    requires w.nextEndpoint == p.nextEndpoint && (w.kept.endpoint == p.kept.endpoint || w.kept.endpoint == NO_ID)
    requires w.kept.vpc == p.kept.vpc || p.kept.vpc == NO_ID
    ensures EndpointsInv(w.kept.endpoint, w.kept.vpc, w.endpoints, w.nextEndpoint,
      EndpointTag(e, w.kept.(infra := infra)), e.cluster)
  {
    assert EndpointTag(e, w.kept.(infra := infra)) == EndpointTag(e, p.kept.(infra := infra));
    hide Naming.GenerateName;
  }

  lemma TearingKeepsSafe(e: Env, infra: string, p: View, w: View, ok: bool, seen: Option<string>)
    requires Safe(e, infra, p) && SameBut(p.status, p.kept) && Torn(e, p, w, ok, seen) && NO_ID !in w.endpoints
      && NO_ID !in w.groups
    requires (w.kept.vpc == p.kept.vpc || p.kept.vpc == NO_ID) && (w.kept.infra == "" || w.kept.infra == infra)
    ensures Safe(e, infra, w)
  {
    hide InfraOf, RecordTarget, ZoneTarget, EndpointTarget, GroupTag, EndpointTag, Groups.GroupsInv,
         EndpointsInv, OnlyDeleting, OwnFollows, CacheKnown;
    TearingKeepsGroups(e, infra, p, w);
    TearingKeepsEndpoints(e, infra, p, w);
  }

  /** What a reconcile of a CR that is being deleted and still has the finalizer promises; `removed` tells whether
      the finalizer went, `seen` the base domain the cleanup went by, `later` when it ended. */
  ghost predicate DeletionRel(e: Env, infra: string, v: View, w: View, removed: bool, seen: Option<string>,
                              later: nat) {
    var st := v.kept;
    && Torn(e, v.(status := st), w, removed, seen)
    && InputsFilled(e.spec, e.lookups, st, w.kept)
    && (Safe(e, infra, v) && NO_ID !in w.endpoints && NO_ID !in w.groups ==> Safe(e, infra, w))
    && (NoFaults(v, w) && CanCleanUp(e, st) && Tearable(e, v.(status := st)) ==> removed)
    && (NoFaults(v, w) && CanCleanUp(e, st) && Unobstructed(e, v.(status := st)) && !removed ==>
          TimedOut(st.endpoint, v.endpoints, e.now, w.endpoints, later, e.catalog.deleteDelay))
  }

  lemma ReadingIsDeletion(e: Env, infra: string, v: View, w: View, later: nat)
    requires ParseStep(e, v, w) && RecordNamed(v.kept) && (NoFaults(v, w) ==> !CanCleanUp(e, v.kept))
    ensures DeletionRel(e, infra, v, w, false, e.lookups.baseDomain, later)
  {
    hide Safe, CanCleanUp, InfraOf, ServiceOf, Tearable, Cleared, Staying;
    if Safe(e, infra, v) {
      ParseKeepsSafe(e, infra, v, w);
    }
  }

  /** A cleanup from what was read is a cleanup from what was persisted. */
  lemma TornFromKept(e: Env, v: View, p: View, w: View, ok: bool, seen: Option<string>)
    requires ParseStep(e, v, p) && SameBut(p.status, p.kept) && Torn(e, p, w, ok, seen)
    ensures Torn(e, v.(status := v.kept), w, ok, seen)
    ensures Tearable(e, v.(status := v.kept)) == Tearable(e, p)
    ensures Unobstructed(e, v.(status := v.kept)) == Unobstructed(e, p)
  {
    hide InfraOf, ServiceOf, OnlyDeleting, Staying, Deletable, GroupFree, Cleared, Accounted;
  }

  lemma CleanupIsDeletion(e: Env, infra: string, v: View, p: View, m: View, w: View, ok: bool, removed: bool,
                          seen: Option<string>, later: nat)
    requires ParseStep(e, v, p) && SameBut(p.status, p.kept) && TeardownRel(e, p, m, ok, seen, later)
    requires w == m.(k8sBudget := w.k8sBudget) && w.k8sBudget <= m.k8sBudget
    requires removed ==> ok
    requires w.k8sBudget == m.k8sBudget && ok ==> removed
    ensures DeletionRel(e, infra, v, w, removed, seen, later)
  {
    hide Safe, CanCleanUp, InfraOf, ServiceOf, Tearable, Unobstructed, OnlyDeleting, Staying, RecordTarget, TimedOut,
         Accounted;
    assert Torn(e, p, w, removed, seen);
    TornFromKept(e, v, p, w, removed, seen);
    if Safe(e, infra, v) && NO_ID !in w.endpoints && NO_ID !in w.groups {
      ParseKeepsSafe(e, infra, v, p);
      SafeInfra(e, infra, v);
      TearingKeepsSafe(e, infra, p, w, removed, seen);
    }
  }

  lemma SafeInfra(e: Env, infra: string, v: View)
    requires Safe(e, infra, v)
    ensures InfraIs(e, v.kept, infra)
  {
  }

  lemma TeardownIgnoresCluster(e: Env, e': Env, v: View, w: View, ok: bool, seen: Option<string>, later: nat)
    requires TeardownRel(e', v, w, ok, seen, later) && e == e'.(cluster := e.cluster)
    ensures TeardownRel(e, v, w, ok, seen, later) && Spends(v, w)
  {
    hide OnlyDeleting, Staying, RecordTarget, Deletable, TimedOut, GroupFree, Accounted;
  }

  /** What the answer to a deletion tells: half a minute's wait that AWS refuses to delete the group, an error without
      faults that something else stands in the way of the cleanup. */
  ghost predicate DeletionAnswer(e: Env, v: View, w: View, out: Outcome) {
    && (out.RequeueAfter? ==> out.seconds == 30 && GroupHeld(v.kept.group, w.groups, w.endpoints))
    && (out.Retry? && NoFaults(v, w) ==>
          || !CanCleanUp(e, v.kept) || RecordLost(v.kept, v.zones)
          || (v.kept.zone != NoZone && !ZoneDecidable(e.spec.dns, e.lookups.baseDomain))
          || !Deletable(v.kept.endpoint, v.endpoints, e.now, e.catalog.deleteDelay))
  }

  lemma RefusalAnswers(e: Env, e': Env, v: View, p: View, w: View, error: Error)
    requires ParseStep(e, v, p) && Refusal(e', p, w, error) && Spends(p, w) && e == e'.(cluster := e.cluster)
    ensures DeletionAnswer(e, v, w, if error == Dependency then RequeueAfter(30) else Retry(error))
  {
    hide CanCleanUp, GroupHeld, Deletable, InfraOf, ServiceOf;
  }

  /** A reconcile of a CR that is being deleted, once it has been read. */
  method ReconcileDeleting(r: VpcEndpointReconciler, ghost infra: string, ghost v: View)
    returns (out: Outcome, ghost seen: Option<string>)
    requires Readable(r) && RecordNamed(r.status) && r.vpce.deleting
    requires ParseStep(CrEnv(r, infra), v, r.ViewOf())
    modifies r`vpce, r`status, r`cache, r`unseen, r.k8s`stored, r.k8s`present, r.k8s`status, r.k8s`failedWrites
    modifies r.k8s`budget
    modifies r.aws`zones, r.aws`nextZone, r.aws`endpoints, r.aws`groups
    modifies r.aws`mutations, r.aws`creations, r.aws`budget, r.aws`answers, r.aws`now
    ensures if old(r.k8s.stored.finalizer) then
        DeletionRel(old(CrEnv(r, infra)), infra, v, r.ViewOf(), !r.k8s.stored.finalizer, seen, r.aws.now)
      else r.ViewOf() == old(r.ViewOf()) && out == Stop
    ensures r.k8s.stored == old(r.k8s.stored).(finalizer := r.k8s.stored.finalizer) && r.aws.now >= old(r.aws.now)
    ensures r.k8s.stored.finalizer ==> old(r.k8s.stored.finalizer) && r.k8s.present
    ensures old(r.k8s.stored.finalizer) && !r.k8s.stored.finalizer ==> !r.k8s.present
    ensures out == Stop ==> !r.k8s.stored.finalizer
    ensures old(r.k8s.stored.finalizer) ==> DeletionAnswer(old(CrEnv(r, infra)), v, r.ViewOf(), out)
  {
    hide TeardownRel, DeletionRel, RecordNamed, ParseStep, SameBut, DeletionAnswer, Refusal,
         Naming.GetClusterLegacyTagKey;
    out, seen := Stop, r.k8s.lookups.baseDomain;
    if r.vpce.finalizer {
      ghost var e, e', p := CrEnv(r, infra), r.EnvOf(), r.ViewOf();
      var cleaned;
      cleaned, seen := CleanupAwsResources(r);
      ghost var m := r.ViewOf();
      TeardownIgnoresCluster(e, e', p, m, cleaned.Ok?, seen, r.aws.now);
      if cleaned.Err? {
        CleanupIsDeletion(e, infra, v, p, m, m, false, false, seen, r.aws.now);
        RefusalAnswers(e, e', v, p, m, cleaned.error);
        return if cleaned.error == Dependency then RequeueAfter(30) else Retry(cleaned.error), seen;
      }
      r.vpce := r.vpce.(finalizer := false);
      var updated := r.k8s.UpdateFinalizer(false);
      CleanupIsDeletion(e, infra, v, p, m, r.ViewOf(), true, !r.k8s.stored.finalizer, seen, r.aws.now);
      if updated.Err? {
        out := Retry(updated.error);
      }
      FinalizerAnswers(e, v, p, m, r.ViewOf(), out);
    }
  }

  lemma NoClientAnswers(e: Env, v: View, w: View, error: Error)
    requires NoFaults(v, w) ==> !CanCleanUp(e, v.kept)
    ensures DeletionAnswer(e, v, w, Retry(error))
  {
  }

  /** What is answered about a CR that is not being deleted: an error, or a quarter of an hour's wait when all went
      well, or a minute's while the record is missing. */
  predicate LiveAnswer(st: Status, out: Outcome) {
    out.Retry? || out == RequeueAfter(15 * 60)
    || (out == RequeueAfter(60) && st.endpointCond == CondTrue && st.recordCond != CondTrue)
  }

  lemma FinalizerAnswers(e: Env, v: View, p: View, m: View, w: View, out: Outcome)
    requires ParseStep(e, v, p) && Spends(p, m) && w == m.(k8sBudget := w.k8sBudget) && w.k8sBudget <= m.k8sBudget
    requires out == Stop || (out.Retry? && w.k8sBudget < m.k8sBudget)
    ensures DeletionAnswer(e, v, w, out)
  {
    hide CanCleanUp, GroupHeld, Deletable, InfraOf, ServiceOf;
  }

  // ---- Reconcile ----

  /** What the removal of the finalizer stands for: neither the recorded endpoint nor the recorded group is left. */
  predicate NothingRecordedIsLeft(st: Status, endpoints: map<Id, Endpoint>, groups: map<Id, Group>) {
    Gone(st.endpoint, endpoints) && st.group !in groups
  }

  lemma RemovalMeans(e: Env, infra: string, v: View, w: View, seen: Option<string>, later: nat)
    requires DeletionRel(e, infra, v, w, true, seen, later)
    ensures NothingRecordedIsLeft(v.kept, w.endpoints, w.groups)
  {
    hide RecordTarget, ZoneTarget, OnlyDeleting;
  }

  lemma DeletionKeepsRecordNamed(e: Env, infra: string, v: View, w: View, removed: bool, seen: Option<string>,
                                 later: nat)
    requires DeletionRel(e, infra, v, w, removed, seen, later)
    ensures RecordNamed(w.kept) && w.creations == v.creations
  {
    hide RecordTarget, ZoneTarget, OnlyDeleting;
  }

  lemma ParsedRecordNamed(e: Env, v: View, p: View)
    requires ParseStep(e, v, p) && RecordNamed(v.kept)
    ensures RecordNamed(p.status) && RecordNamed(p.kept)
  {
  }

  lemma ParsedInfra(e: Env, infra: string, v: View, p: View)
    requires ParseStep(e, v, p) && InfraIs(e, v.kept, infra) && p.status.infra != ""
    ensures p.status.infra == infra && e.cluster == ClusterKey(infra)
  {
  }

  lemma LiveCr(e: Env, infra: string, v: View, p: View, w: View, ok: bool)
    requires ParseStep(e, v, p) && PassRel(e, p, w, ok) && InfraIs(e, v.kept, infra)
    requires p.status == p.kept && p.kept.infra != "" && p.kept.vpc != NO_ID && p.kept.service != ""
    requires NoFaults(v, p) && ServiceOf(e.spec, e.lookups).Some? ==>
      ServiceOf(e.spec, e.lookups).value == p.kept.service
    requires p.kept.vpc != v.kept.vpc ==>
      Allowed(p.kept.vpc, e.spec.vpc, e.catalog, v.endpoints, ClusterKey(p.kept.infra))
    ensures LiveRel(e, infra, v, w) && AnswerRel(e, infra, v, w, ok)
  {
    hide PassRel, LiveRel, AnswerRel, Allowed;
    assert p.kept.infra == infra;
    PassIsLive(e, infra, v, p, w, ok);
    PassAnswers(e, infra, v, p, w, ok);
  }

  lemma PassKeepsRecordNamed(e: Env, p: View, w: View, ok: bool)
    requires PassRel(e, p, w, ok) && RecordNamed(p.status)
    ensures RecordNamed(w.kept)
  {
    hide FastPath, AtMostOne, Healthy, AllDone, Calm, RecordTrue, Witnessed, ZoneIds, StateFollows, RulesHealthy,
         RecordUndisturbed;
  }

  /** What holds between reconciles, and what parseClusterInfo records, whatever kind of reconcile it was. */
  lemma StaysSafe(e: Env, infra: string, v: View, w: View, removed: bool, seen: Option<string>, later: nat)
    requires LiveRel(e, infra, v, w) || DeletionRel(e, infra, v, w, removed, seen, later) || ParseStep(e, v, w)
      || w == v.(k8sBudget := w.k8sBudget)
    requires Safe(e, infra, v) && NO_ID !in w.endpoints && NO_ID !in w.groups
    ensures Safe(e, infra, w) && InputsFilled(e.spec, e.lookups, v.kept, w.kept)
  {
    hide FastPath, Torn, AllDone, Healthy, Calm, RecordUndisturbed, StateFollows, CanCleanUp, ParseHealthy, ServiceOf,
         InfraOf, RulesHealthy, Tearable, Unobstructed, TimedOut, Accounted;
    hide Groups.GroupsInv, EndpointsInv, GroupTag, EndpointTag, Witnessed, ZoneIds;
    if ParseStep(e, v, w) {
      ParseKeepsSafe(e, infra, v, w);
    }
  }

  lemma LoadedStep(e: Env, v: View, g: View, p: View)
    requires g == v.(status := g.status) && ParseStep(e, g, p)
    ensures ParseStep(e, v, p)
  {
  }

  lemma ParseStepSpends(e: Env, v: View, p: View, q: View)
    requires ParseStep(e, v, p) && q == p.(k8sBudget := q.k8sBudget) && q.k8sBudget <= p.k8sBudget
    ensures ParseStep(e, v, q)
  {
  }

  /** The CR could not be read. */
  lemma GetFailed(e: Env, infra: string, v: View, w: View, later: nat)
    requires w == v.(k8sBudget := w.k8sBudget) && w.k8sBudget < v.k8sBudget && NoZone !in v.cache && RecordNamed(v.kept)
    ensures LiveRel(e, infra, v, w) && DeletionRel(e, infra, v, w, false, e.lookups.baseDomain, later)
  {
    hide Groups.GroupsInv, EndpointsInv, GroupDone, EndpointReady, DnsDone, DnsCalm, Healthy, ZonePinned, RecordTrue,
         Witnessed, ZoneIds, RulesHealthy;
    hide Waiting, GroupTag, EndpointTag, ParseHealthy, CanCleanUp, RecordTarget, ZoneTarget, Staying, InfraIs,
         ServiceOf, RecordUndisturbed, Tearable, Unobstructed, TimedOut, Accounted, StateFollows;
  }

  /** Reads the cluster information and makes sure that there is an AWS client. */
  method Prepare(r: VpcEndpointReconciler, ghost infra: string, ghost v: View) returns (res: Result<()>)
    requires r.Synced() && r.ViewOf() == v.(status := v.kept) && !r.clientReady
    modifies r`status, r`clusterTag, r`clientReady, r.k8s`status, r.k8s`failedWrites, r.k8s`budget, r.aws`budget
    ensures ParseStep(CrEnv(r, infra), v, r.ViewOf()) && Readable(r)
    ensures res.Ok? ==> HasCredentials(r.vpce.spec, r.k8s.lookups)
    ensures res.Ok? && !r.vpce.deleting ==>
      && r.Synced() && r.Parsed() && r.status.infra != "" && r.status.service != ""
      && (r.k8s.budget == v.k8sBudget && ServiceOf(r.vpce.spec, r.k8s.lookups).Some? ==>
            ServiceOf(r.vpce.spec, r.k8s.lookups).value == r.status.service)
      && (r.status.vpc != v.kept.vpc ==>
            Allowed(r.status.vpc, r.vpce.spec.vpc, r.aws.catalog, r.aws.endpoints, ClusterKey(r.status.infra)))
    ensures res.Err? && NoFaults(v, r.ViewOf()) ==>
      if r.vpce.deleting then !CanCleanUp(CrEnv(r, infra), v.kept)
        else !ParseHealthy(r.vpce.spec, v.kept, r.k8s.lookups, r.aws.catalog)
  {
    hide ParseStep, ParseHealthy, SameBut, ServiceOf, Allowed;
    ghost var e, g := CrEnv(r, infra), r.ViewOf();
    res := ReadCr(r, infra);
    LoadedStep(e, v, g, r.ViewOf());
    if res.Err? && r.vpce.deleting {
      ghost var p := r.ViewOf();
      res := ClientForCleanup(r, res.error);
      ParseStepSpends(e, v, p, r.ViewOf());
    }
  }

  /** A reconcile once the CR has been fetched; `v` is what it started from. */
  method ReconcileFetched(r: VpcEndpointReconciler, ghost infra: string, ghost v: View)
    returns (out: Outcome, ghost seen: Option<string>)
    requires r.Synced() && r.ViewOf() == v.(status := v.kept) && RecordNamed(v.kept) && !r.clientReady
    modifies r`vpce, r`status, r`cache, r`unseen, r`clusterTag, r`clientReady
    modifies r.k8s`stored, r.k8s`present, r.k8s`status, r.k8s`failedWrites, r.k8s`service, r.k8s`serviceWrites
    modifies r.k8s`budget
    modifies r.aws`groups, r.aws`nextGroup, r.aws`endpoints, r.aws`nextEndpoint, r.aws`zones, r.aws`authorized
    modifies r.aws`lost, r.aws`nextZone
    modifies r.aws`mutations, r.aws`creations, r.aws`budget, r.aws`answers, r.aws`now
    ensures RecordNamed(r.k8s.status)
    ensures r.k8s.stored == old(r.k8s.stored).(finalizer := r.k8s.stored.finalizer) && r.aws.now >= old(r.aws.now)
    ensures r.aws.mutations != old(r.aws.mutations) ==> HasCredentials(r.k8s.stored.spec, r.k8s.lookups)
    ensures r.aws.creations != old(r.aws.creations) ==> !r.k8s.stored.deleting && r.k8s.stored.finalizer
    ensures old(r.k8s.stored.finalizer) && !r.k8s.stored.finalizer ==> r.k8s.stored.deleting
    ensures !r.k8s.stored.deleting && InfraIs(old(CrEnv(r, infra)), v.kept, infra) ==>
      LiveRel(old(CrEnv(r, infra)), infra, v, r.ViewOf())
      && AnswerRel(old(CrEnv(r, infra)), infra, v, r.ViewOf(), out == RequeueAfter(15 * 60))
    ensures !r.k8s.stored.deleting ==> r.k8s.present && r.aws.now == old(r.aws.now)
    ensures r.k8s.stored.deleting && old(r.k8s.stored.finalizer) ==> r.k8s.present == r.k8s.stored.finalizer
    ensures r.k8s.stored.deleting && old(r.k8s.stored.finalizer) ==>
      DeletionRel(old(CrEnv(r, infra)), infra, v, r.ViewOf(), !r.k8s.stored.finalizer, seen, r.aws.now)
    ensures r.k8s.stored.deleting && !old(r.k8s.stored.finalizer) ==> ParseStep(old(CrEnv(r, infra)), v, r.ViewOf())
    ensures if r.k8s.stored.deleting then out == Stop ==> !r.k8s.stored.finalizer else LiveAnswer(r.status, out)
    ensures r.k8s.stored.deleting && old(r.k8s.stored.finalizer) ==>
      DeletionAnswer(old(CrEnv(r, infra)), v, r.ViewOf(), out)
  {
    hide LiveRel, AnswerRel, DeletionRel, PassRel, ParseStep, ParseHealthy, RecordNamed, InfraIs, SameBut, ServiceOf,
         HasCredentials, DeletionAnswer, CanCleanUp, Allowed;
    ghost var e := CrEnv(r, infra);
    seen := e.lookups.baseDomain;
    var prepared := Prepare(r, infra, v);
    ghost var p := r.ViewOf();
    ParsedRecordNamed(e, v, p);
    if prepared.Err? {
      if r.vpce.deleting {
        ReadingIsDeletion(e, infra, v, p, r.aws.now);
        NoClientAnswers(e, v, p, prepared.error);
      } else if InfraIs(e, v.kept, infra) {
        ReadingIsLive(e, infra, v, p);
        ErrorAnswers(e, infra, v, p);
      }
      return Retry(prepared.error), seen;
    }
    if !r.vpce.deleting {
      ghost var e' := r.EnvOf();
      if InfraIs(e, v.kept, infra) {
        ParsedInfra(e, infra, v, p);
      }
      ghost var ok;
      out, ok := ReconcileLive(r);
      PassKeepsRecordNamed(e', p, r.ViewOf(), ok);
      if InfraIs(e, v.kept, infra) {
        LiveCr(e, infra, v, p, r.ViewOf(), ok);
      }
    } else {
      ghost var finalizer := r.k8s.stored.finalizer;
      out, seen := ReconcileDeleting(r, infra, v);
      if finalizer {
        DeletionKeepsRecordNamed(e, infra, v, r.ViewOf(), !r.k8s.stored.finalizer, seen, r.aws.now);
      }
    }
  }

  /** Reconcile. `infra` is the cluster's infra id, `seen` the base domain that a cleanup went by. */
  method Reconcile(r: VpcEndpointReconciler, ghost infra: string) returns (out: Outcome, ghost seen: Option<string>)
    // a reachable-state invariant, which every reconcile keeps
    requires RecordNamed(r.k8s.status)
    modifies r`vpce, r`status, r`cache, r`unseen, r`clusterTag, r`clientReady
    modifies r.k8s`stored, r.k8s`present, r.k8s`status, r.k8s`failedWrites, r.k8s`service, r.k8s`serviceWrites
    modifies r.k8s`budget
    modifies r.aws`groups, r.aws`nextGroup, r.aws`endpoints, r.aws`nextEndpoint, r.aws`zones, r.aws`authorized
    modifies r.aws`lost, r.aws`nextZone
    modifies r.aws`mutations, r.aws`creations, r.aws`budget, r.aws`answers, r.aws`now
    ensures RecordNamed(r.k8s.status)
    ensures r.k8s.stored == old(r.k8s.stored).(finalizer := r.k8s.stored.finalizer) && r.aws.now >= old(r.aws.now)
    // an object that is gone is not recreated
    ensures !old(r.k8s.present) ==>
      r.ViewOf() == old(r.ViewOf()).(k8sBudget := r.k8s.budget) && r.k8s.stored == old(r.k8s.stored) && !r.k8s.present
    // AWS is called only with a region and credentials that this reconcile could read
    ensures r.aws.mutations != old(r.aws.mutations) ==> HasCredentials(r.k8s.stored.spec, r.k8s.lookups)
    // lifecycle: only a CR that is not being deleted creates anything, and not before its finalizer is persisted
    ensures r.aws.creations != old(r.aws.creations) ==> !r.k8s.stored.deleting && r.k8s.stored.finalizer
    // the finalizer goes only with everything that the status records
    ensures old(r.k8s.stored.finalizer) && !r.k8s.stored.finalizer ==>
      r.k8s.stored.deleting && NothingRecordedIsLeft(old(r.k8s.status), r.aws.endpoints, r.aws.groups)
    ensures old(r.k8s.present) && !r.k8s.stored.deleting ==> r.k8s.present && r.aws.now == old(r.aws.now)
    ensures old(r.k8s.present) && !r.k8s.stored.deleting && InfraIs(old(CrEnv(r, infra)), old(r.k8s.status), infra) ==>
      LiveRel(old(CrEnv(r, infra)), infra, old(r.ViewOf()), r.ViewOf())
      && AnswerRel(old(CrEnv(r, infra)), infra, old(r.ViewOf()), r.ViewOf(), out == RequeueAfter(15 * 60))
    ensures old(r.k8s.present) && r.k8s.stored.deleting && old(r.k8s.stored.finalizer) ==>
      && r.k8s.present == r.k8s.stored.finalizer
      && DeletionRel(old(CrEnv(r, infra)), infra, old(r.ViewOf()), r.ViewOf(), !r.k8s.stored.finalizer, seen, r.aws.now)
    // the answer: nothing more to do only for a CR that is gone or has no finalizer left
    ensures out == Stop ==> !r.k8s.present || (r.k8s.stored.deleting && !r.k8s.stored.finalizer)
    ensures !old(r.k8s.present) && r.k8s.budget == old(r.k8s.budget) ==> out == Stop
    ensures old(r.k8s.present) && !r.k8s.stored.deleting ==> LiveAnswer(r.status, out)
    ensures old(r.k8s.present) && r.k8s.stored.deleting && old(r.k8s.stored.finalizer) ==>
      DeletionAnswer(old(CrEnv(r, infra)), old(r.ViewOf()), r.ViewOf(), out)
    // in every case: at most one group and endpoint in one VPC, which is recorded once
    ensures Safe(old(CrEnv(r, infra)), infra, old(r.ViewOf())) ==>
      && Safe(old(CrEnv(r, infra)), infra, r.ViewOf())
      && InputsFilled(r.k8s.stored.spec, r.k8s.lookups, old(r.k8s.status), r.k8s.status)
  {
    hide LiveRel, AnswerRel, DeletionRel, ParseStep, RecordNamed, NothingRecordedIsLeft, InfraIs, Safe, InputsFilled,
         DeletionAnswer, HasCredentials;
    ghost var e, v := CrEnv(r, infra), r.ViewOf();
    r.clientReady, seen := false, e.lookups.baseDomain;
    var got := r.k8s.Get();
    if got.Err? {
      if r.k8s.present {
        GetFailed(e, infra, v, r.ViewOf(), r.aws.now);
        ErrorAnswers(e, infra, v, r.ViewOf());
        NoClientAnswers(e, v, r.ViewOf(), got.error);
      }
      if Safe(e, infra, v) {
        StaysSafe(e, infra, v, r.ViewOf(), false, seen, r.aws.now);
      }
      return if got.error == NotFound then Stop else Retry(got.error), seen;
    }
    r.vpce, r.status := got.value.0, got.value.1;
    ghost var finalizer := r.k8s.stored.finalizer;
    out, seen := ReconcileFetched(r, infra, v);
    if finalizer && !r.k8s.stored.finalizer {
      RemovalMeans(e, infra, v, r.ViewOf(), seen, r.aws.now);
    }
    if Safe(e, infra, v) {
      SafeInfra(e, infra, v);
      StaysSafe(e, infra, v, r.ViewOf(), !r.k8s.stored.finalizer, seen, r.aws.now);
    }
  }
}
