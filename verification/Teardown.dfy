/** Teardown: the reconciles of a CR that is being deleted, until it is gone. */
module Teardown {
  import opened Aws
  import opened Kube
  import opened Reconciler
  import opened HostedZoneCache
  import opened DnsStage
  import opened EndpointStage
  import opened ClusterInfo
  import opened Cleanup
  import opened Validation
  import opened Controller
  import opened Runs
  import opened Convergence

  /** Nothing but faults and a slow deletion can stop the cleanup. */
  ghost predicate CleanupOpen(e: Env, infra: string, v: View) {
    Safe(e, infra, v) && CanCleanUp(e, v.kept) && Unobstructed(e, v.(status := v.kept))
  }

  /** Whether it makes no difference if the cluster's base domain cannot be read: the CR is not one of a hosted control
      plane, or names another domain. */
  predicate SafeguardSure(dns: DnsSpec, base: Option<string>) {
    IsHcp(dns) && base.Some? ==> dns.domainName != base.value
  }

  lemma SameTarget(dns: DnsSpec, base: Option<string>, seen: Option<string>, st: Status, zones: map<Id, Zone>, v: View,
                   w: View)
    requires WentBy(dns, base, seen, v, w) && (seen == base || SafeguardSure(dns, base))
    ensures ZoneTarget(dns, seen, st, zones) == ZoneTarget(dns, base, st, zones)
  {
    hide RecordTarget;
  }

  // ---- how long it takes ----

  /** How often the polling loop gives up on a deletion that takes so long. */
  function Timeouts(remaining: nat): nat {
    (remaining + POLL_INTERVAL - 1) / POLL_TIMEOUT
  }

  /** Exactly the deletions that are not over at the last look make the loop give up. */
  lemma NoTimeoutIff(remaining: nat)
    ensures Timeouts(remaining) == 0 <==> remaining <= 175
  {
  }

  lemma TimeoutsShrink(r: nat, r': nat)
    requires r' <= r
    ensures Timeouts(r') <= Timeouts(r)
    ensures r > POLL_TIMEOUT - POLL_INTERVAL && (r' == 0 || r' + POLL_TIMEOUT <= r) ==> Timeouts(r') < Timeouts(r)
  {
  }

  /** An attempt never prolongs the deletion. */
  lemma RemainingShrinks(now: nat, later: nat, delay: nat, id: Id, id': Id, m: map<Id, Endpoint>, m': map<Id, Endpoint>)
    requires now <= later && OnlyDeleting(m, m', id) && OwnFollows(now, delay, id, m, m')
    requires id' == id || (id' == NO_ID && NO_ID !in m')
    ensures Remaining(id', m', later, delay) <= Remaining(id, m, now, delay)
  {
  }

  // ---- what attempts keep ----

  lemma FreeStays(group: Id, groups: map<Id, Group>, groups': map<Id, Group>, id: Id, id': Id, m: map<Id, Endpoint>,
                  m': map<Id, Endpoint>)
    requires GroupFree(group, groups, m - {id}) && groups'.Keys <= groups.Keys && OnlyDeleting(m, m', id)
    requires id' == id || Gone(id, m')
    ensures GroupFree(group, groups', m' - {id'})
  {
    if group in groups' {
      forall i | i in m' - {id'} && Live(m'[i])
        ensures group !in m'[i].groups
      {
        assert i in m - {id};
      }
    }
  }

  /** An attempt that did not finish leaves the way open, to the same end. */
  lemma StaysOpen(e: Env, e': Env, infra: string, v: View, w: View, seen: Option<string>)
    requires CleanupOpen(e, infra, v) && DeletionRel(e, infra, v, w, false, seen, e'.now) && NO_ID !in w.endpoints
      && NO_ID !in w.groups
    requires e' == e.(now := e'.now) && e.now <= e'.now
    ensures CleanupOpen(e', infra, w)
    ensures seen == e.lookups.baseDomain || SafeguardSure(e.spec.dns, e.lookups.baseDomain) ==>
      ZoneTarget(e.spec.dns, e.lookups.baseDomain, w.kept, w.zones) ==
        ZoneTarget(e.spec.dns, e.lookups.baseDomain, v.kept, v.zones)
    ensures EndpointTarget(w.kept, w.endpoints) == EndpointTarget(v.kept, v.endpoints)
    ensures GroupTarget(w.kept, w.groups) == GroupTarget(v.kept, v.groups)
  {
    hide Safe, ParseHealthy, InputsFilled, RecordTarget, ZoneTarget, EndpointTarget, OnlyDeleting, OwnFollows,
         Deletable, TimedOut, GroupFree, Accounted;
    SafeAnytime(e, e', infra, w);
    if ParseHealthy(e.spec, v.kept, e.lookups, e.catalog) {
      ParseHealthyFilled(e.spec, v.kept, w.kept, e.lookups, e.catalog);
    }
    FreeStays(v.kept.group, v.groups, w.groups, v.kept.endpoint, w.kept.endpoint, v.endpoints, w.endpoints);
    if seen == e.lookups.baseDomain || SafeguardSure(e.spec.dns, e.lookups.baseDomain) {
      SameTarget(e.spec.dns, e.lookups.baseDomain, seen, w.kept, w.zones, v, w);
      SameTarget(e.spec.dns, e.lookups.baseDomain, seen, v.kept, v.zones, v, w);
    }
  }

  /** An attempt that finished has come to the end that every attempt leads to. */
  lemma Finished(e: Env, infra: string, v: View, w: View, seen: Option<string>, later: nat)
    requires DeletionRel(e, infra, v, w, true, seen, later)
    ensures seen == e.lookups.baseDomain || SafeguardSure(e.spec.dns, e.lookups.baseDomain) ==>
      w.zones == ZoneTarget(e.spec.dns, e.lookups.baseDomain, v.kept, v.zones)
    ensures Staying(w.endpoints) == EndpointTarget(v.kept, v.endpoints)
    ensures w.groups == GroupTarget(v.kept, v.groups)
  {
    hide Safe, CanCleanUp, InputsFilled, RecordTarget, ZoneTarget, EndpointTarget, OnlyDeleting, OwnFollows, Deletable,
         TimedOut, GroupFree, Staying, Accounted;
    if seen == e.lookups.baseDomain || SafeguardSure(e.spec.dns, e.lookups.baseDomain) {
      SameTarget(e.spec.dns, e.lookups.baseDomain, seen, v.kept, v.zones, v, w);
    }
  }

  /** What there is left to spend before an attempt has to finish: faults, and time-outs of the polling loop. */
  function Slack(e: Env, v: View): nat {
    v.awsBudget + v.k8sBudget + Timeouts(Remaining(v.kept.endpoint, v.endpoints, e.now, e.catalog.deleteDelay))
  }

  /** An attempt that does not finish has spent a fault, or the polling loop has given up once more. */
  lemma MustFinish(e: Env, e': Env, infra: string, v: View, w: View, removed: bool, seen: Option<string>)
    requires CleanupOpen(e, infra, v) && DeletionRel(e, infra, v, w, removed, seen, e'.now) && NO_ID !in w.endpoints
    requires e' == e.(now := e'.now) && e.now <= e'.now
    ensures Slack(e', w) <= Slack(e, v)
    ensures !removed ==> Slack(e', w) < Slack(e, v)
  {
    hide Safe, CanCleanUp, InputsFilled, RecordTarget, ZoneTarget, EndpointTarget, OnlyDeleting, OwnFollows,
         GroupFree, Staying, Accounted, Timeouts, Remaining;
    var delay, id, id' := e.catalog.deleteDelay, v.kept.endpoint, w.kept.endpoint;
    var r, r' := Remaining(id, v.endpoints, e.now, delay), Remaining(id', w.endpoints, e'.now, delay);
    RemainingShrinks(e.now, e'.now, delay, id, id', v.endpoints, w.endpoints);
    TimeoutsShrink(r, r');
    if !removed && NoFaults(v, w) {
      ForgottenIsGone(id, id', w.endpoints, e'.now, delay);
    }
  }

  lemma ForgottenIsGone(id: Id, id': Id, m: map<Id, Endpoint>, now: nat, delay: nat)
    ensures id' == NO_ID && NO_ID !in m ==> Remaining(id', m, now, delay) == 0
  {
  }

  lemma OpenMeans(e: Env, infra: string, v: View)
    requires CleanupOpen(e, infra, v)
    ensures RecordNamed(v.kept)
  {
  }

  /** Crash-safe teardown: however many calls fail, wherever an attempt stops and however long the deletion of the
      endpoint takes, the CR goes in the end, after at most one attempt more than there were faults and time-outs, and
      AWS is left as by a single attempt without faults. For the zones that is so unless some attempt went without the
      cluster's base domain, as `misread` tells, and the CR is one of a hosted control plane that names that domain. */
  method TearDown(r: VpcEndpointReconciler, ghost infra: string) returns (attempts: nat, ghost misread: bool)
    requires r.k8s.present && r.k8s.stored.deleting && r.k8s.stored.finalizer
    requires CleanupOpen(CrEnv(r, infra), infra, r.ViewOf())
    modifies r, r.k8s, r.aws
    ensures !r.k8s.present
    ensures !misread || SafeguardSure(r.k8s.stored.spec.dns, r.k8s.lookups.baseDomain) ==>
      r.aws.zones == ZoneTarget(r.k8s.stored.spec.dns, r.k8s.lookups.baseDomain, old(r.k8s.status), old(r.aws.zones))
    ensures Staying(r.aws.endpoints) == EndpointTarget(old(r.k8s.status), old(r.aws.endpoints))
    ensures r.aws.groups == GroupTarget(old(r.k8s.status), old(r.aws.groups))
    ensures misread ==> old(r.k8s.budget) > 0
    ensures attempts <= 1 + old(r.aws.budget) + old(r.k8s.budget)
      + Timeouts(Remaining(old(r.k8s.status.endpoint), old(r.aws.endpoints), old(r.aws.now),
        old(r.aws.catalog.deleteDelay)))
  {
    hide CleanupOpen, DeletionRel, ZoneTarget, EndpointTarget, Staying, Safe, InputsFilled, SafeguardSure, Slack;
    attempts, misread := 0, false;
    ghost var dns, base, slack := r.k8s.stored.spec.dns, r.k8s.lookups.baseDomain, Slack(CrEnv(r, infra), r.ViewOf());
    SlackIs(CrEnv(r, infra), r.ViewOf());
    while r.k8s.present
      invariant r.k8s.stored.spec.dns == dns && r.k8s.lookups.baseDomain == base && r.k8s.budget <= old(r.k8s.budget)
      invariant misread ==> old(r.k8s.budget) > 0
      invariant r.k8s.present ==>
        && r.k8s.stored.deleting && r.k8s.stored.finalizer && CleanupOpen(CrEnv(r, infra), infra, r.ViewOf())
        && (!misread || SafeguardSure(dns, base) ==>
              ZoneTarget(dns, base, r.k8s.status, r.aws.zones) ==
                ZoneTarget(dns, base, old(r.k8s.status), old(r.aws.zones)))
        && EndpointTarget(r.k8s.status, r.aws.endpoints) == EndpointTarget(old(r.k8s.status), old(r.aws.endpoints))
        && GroupTarget(r.k8s.status, r.aws.groups) == GroupTarget(old(r.k8s.status), old(r.aws.groups))
        && attempts + Slack(CrEnv(r, infra), r.ViewOf()) <= slack
      invariant !r.k8s.present ==>
        && (!misread || SafeguardSure(dns, base) ==>
              r.aws.zones == ZoneTarget(dns, base, old(r.k8s.status), old(r.aws.zones)))
        && Staying(r.aws.endpoints) == EndpointTarget(old(r.k8s.status), old(r.aws.endpoints))
        && r.aws.groups == GroupTarget(old(r.k8s.status), old(r.aws.groups))
        && attempts <= slack + 1
      decreases r.k8s.present, Slack(CrEnv(r, infra), r.ViewOf())
    {
      ghost var e, v := CrEnv(r, infra), r.ViewOf();
      OpenMeans(e, infra, v);
      ghost var seen;
      var out;
      out, seen := Reconcile(r, infra);
      attempts := attempts + 1;
      ghost var w := r.ViewOf();
      MustFinish(e, CrEnv(r, infra), infra, v, w, !r.k8s.stored.finalizer, seen);
      AttemptSpends(e, infra, v, w, !r.k8s.stored.finalizer, seen, r.aws.now);
      misread := misread || seen != base;
      if r.k8s.stored.finalizer {
        StaysOpen(e, CrEnv(r, infra), infra, v, w, seen);
      } else {
        Finished(e, infra, v, w, seen, r.aws.now);
      }
    }
  }

  lemma SlackIs(e: Env, v: View)
    ensures Slack(e, v) ==
            v.awsBudget + v.k8sBudget + Timeouts(Remaining(v.kept.endpoint, v.endpoints, e.now, e.catalog.deleteDelay))
  {
  }

  lemma AttemptSpends(e: Env, infra: string, v: View, w: View, removed: bool, seen: Option<string>, later: nat)
    requires DeletionRel(e, infra, v, w, removed, seen, later)
    ensures w.k8sBudget <= v.k8sBudget
    ensures seen != e.lookups.baseDomain ==> w.k8sBudget < v.k8sBudget
  {
    hide Safe, CanCleanUp, InputsFilled, RecordTarget, ZoneTarget, EndpointTarget, OnlyDeleting, OwnFollows, Deletable,
         TimedOut, GroupFree, Staying, Accounted;
  }

  // ---- a record whose zone is gone ----

  /** The zone that the recorded record was in is gone, and its id is not one that AWS is still going to hand out. */
  predicate LostForGood(st: Status, zones: map<Id, Zone>, nextZone: Id) {
    RecordLost(st, zones) && st.zone.n < nextZone
  }

  lemma AttemptKeepsLost(e: Env, infra: string, v: View, w: View, removed: bool, seen: Option<string>, later: nat)
    requires DeletionRel(e, infra, v, w, removed, seen, later) && LostForGood(v.kept, v.zones, v.nextZone)
    ensures !removed && LostForGood(w.kept, w.zones, w.nextZone)
    ensures w.kept.record == v.kept.record && w.kept.zone == v.kept.zone
  {
    hide Safe, CanCleanUp, InputsFilled, RecordTarget, ZoneTarget, EndpointTarget, GroupTarget, OnlyDeleting,
         OwnFollows, Deletable, TimedOut, GroupFree, Staying, Accounted, CacheKnown;
  }

  lemma ActionKeepsLost(e: Env, v: View, a: Action)
    requires LostForGood(v.kept, v.zones, v.nextZone)
    ensures var w := Acted(e, v, a); LostForGood(w.kept, w.zones, w.nextZone)
  {
  }

  method LostAttempt(r: VpcEndpointReconciler, ghost infra: string)
    requires r.k8s.present && r.k8s.stored.deleting && r.k8s.stored.finalizer
    requires Safe(CrEnv(r, infra), infra, r.ViewOf())
    requires LostForGood(r.k8s.status, r.aws.zones, r.aws.nextZone)
    modifies r, r.k8s, r.aws
    ensures r.k8s.present && r.k8s.stored == old(r.k8s.stored)
    ensures Safe(CrEnv(r, infra), infra, r.ViewOf())
    ensures LostForGood(r.k8s.status, r.aws.zones, r.aws.nextZone)
    ensures r.k8s.status.record == old(r.k8s.status.record) && r.k8s.status.zone == old(r.k8s.status.zone)
  {
    hide Safe, DeletionRel, LostForGood;
    ghost var e, v := CrEnv(r, infra), r.ViewOf();
    SafeMeans(e, infra, v);
    var out;
    ghost var seen;
    out, seen := Reconcile(r, infra);
    AttemptKeepsLost(e, infra, v, r.ViewOf(), !r.k8s.stored.finalizer, seen, r.aws.now);
    SafeAnytime(e, CrEnv(r, infra), infra, r.ViewOf());
  }

  /** A CR whose record was in a zone that is gone cannot be torn down: however often its cleanup is attempted, and
      whatever others do in between, it stays, and so does what its status says of record and zone. */
  method StaysUntorn(r: VpcEndpointReconciler, schedule: seq<Action>, ghost infra: string)
    requires r.k8s.present && r.k8s.stored.deleting && r.k8s.stored.finalizer
    requires Safe(CrEnv(r, infra), infra, r.ViewOf())
    requires LostForGood(r.k8s.status, r.aws.zones, r.aws.nextZone)
    requires forall a | a in schedule :: Admissible(a, CrEnv(r, infra), infra)
    modifies r, r.k8s, r.aws
    ensures r.k8s.present && r.k8s.stored.deleting && r.k8s.stored.finalizer
    ensures r.k8s.status.record == old(r.k8s.status.record) && r.k8s.status.zone == old(r.k8s.status.zone)
    ensures LostForGood(r.k8s.status, r.aws.zones, r.aws.nextZone)
  {
    hide Safe, Admissible, EnvAfter, Acted, DeletionRel, LostForGood;
    ghost var name, hcp := r.k8s.stored.name, IsHcp(r.k8s.stored.spec.dns);
    for i := 0 to |schedule|
      invariant Safe(CrEnv(r, infra), infra, r.ViewOf())
      invariant r.k8s.stored.name == name && IsHcp(r.k8s.stored.spec.dns) == hcp
      invariant r.k8s.present && r.k8s.stored.deleting && r.k8s.stored.finalizer
      invariant r.k8s.status.record == old(r.k8s.status.record) && r.k8s.status.zone == old(r.k8s.status.zone)
      invariant LostForGood(r.k8s.status, r.aws.zones, r.aws.nextZone)
    {
      ghost var e, v := CrEnv(r, infra), r.ViewOf();
      assert Admissible(schedule[i], e, infra) by {
        AdmissibleAnytime(schedule[i], old(CrEnv(r, infra)), e, infra);
      }
      if schedule[i] == Pass {
        LostAttempt(r, infra);
      } else {
        KindStays(schedule[i], e, infra);
        StaysDeleting(schedule[i], e);
        Act(r, schedule[i], infra);
        ActionKeepsLost(e, v, schedule[i]);
      }
    }
  }

  lemma StaysDeleting(a: Action, e: Env)
    requires e.deleting
    ensures EnvAfter(a, e).deleting
  {
  }

  /** From a CR in place it takes one step of the environment to get there. */
  lemma LostExample(service: Condition)
    ensures var e, v := ExampleEnv().(deleting := true), Acted(ExampleEnv(), ExampleView(service), ZoneVanishes(1));
            Safe(e, "c1", v) && LostForGood(v.kept, v.zones, v.nextZone) && CanCleanUp(e, v.kept)
  {
    hide GroupTag, EndpointTag, Safe;
    ExampleIsSafe(service);
    ActionKeepsSafe(ExampleEnv(), "c1", ExampleView(service), ZoneVanishes(1));
    ActionKeepsSafe(ExampleEnv(), "c1", Acted(ExampleEnv(), ExampleView(service), ZoneVanishes(1)), MarkDeleted);
    var v := Acted(ExampleEnv(), ExampleView(service), ZoneVanishes(1));
    assert Acted(ExampleEnv(), v, MarkDeleted) == v;
  }

  /** A CR that is in place can be torn down. */
  lemma OpenExample(service: Condition)
    ensures CleanupOpen(ExampleEnv().(deleting := true), "c1", ExampleView(service))
  {
    hide GroupTag, EndpointTag, Safe;
    ExampleIsSafe(service);
    ActionKeepsSafe(ExampleEnv(), "c1", ExampleView(service), MarkDeleted);
    assert Acted(ExampleEnv(), ExampleView(service), MarkDeleted) == ExampleView(service);
  }
}
