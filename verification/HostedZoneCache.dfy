/** The TTL cache of GetHostedZone answers and the loop that associates further VPCs with a zone. */
module HostedZoneCache {
  import opened Aws
  import opened Kube
  import opened Reconciler

  /** hostedZoneCacheTTL, in seconds. */
  const TTL: nat := 120

  predicate Fresh(cache: map<ZoneRef, CacheEntry>, ref: ZoneRef, now: nat) {
    ref in cache && now < cache[ref].fetchedAt + TTL
  }

  /** The entry under this spelling of a zone id, if it is still used, is what GetHostedZone would answer now. */
  predicate AgreesAt(cache: map<ZoneRef, CacheEntry>, ref: ZoneRef, zones: map<Id, Zone>, now: nat) {
    Fresh(cache, ref, now) ==> LiveZone(ref, zones) && Answer(ref, cache[ref]) == Info(ref.n, zones[ref.n])
  }

  /** Entries still in use are about zones that exist. */
  predicate FreshLive(cache: map<ZoneRef, CacheEntry>, zones: map<Id, Zone>, now: nat) {
    forall k | k in cache :: Fresh(cache, k, now) ==> LiveZone(k, zones)
  }

  /** Moreover those of one spelling are what GetHostedZone would answer now. */
  predicate CacheInv(cache: map<ZoneRef, CacheEntry>, zones: map<Id, Zone>, now: nat, bare: bool) {
    && NoZone !in cache
    && FreshLive(cache, zones, now)
    && forall k | k in cache :: k.Bare? == bare ==> AgreesAt(cache, k, zones, now)
  }

  // ---- where cache and AWS differ ----

  ghost predicate ZoneIds(zones: map<Id, Zone>, next: Id) {
    forall i | i in zones :: i < next
  }

  /** What is cached under a spelling of a zone id differs from the zone exactly in the changes that went unseen. */
  ghost predicate Explained(k: ZoneRef, c: CacheEntry, z: Zone, unseen: set<(ZoneRef, Id)>) {
    c.name == z.name && forall x :: (k, x) in unseen <==> (x in z.vpcs) != (x in c.vpcs)
  }

  /** So it is for everything cached, whatever calls have failed: this holds in every run. */
  ghost predicate Accounted(cache: map<ZoneRef, CacheEntry>, unseen: set<(ZoneRef, Id)>, zones: map<Id, Zone>, next: Id,
                            now: nat)
  {
    && ZoneIds(zones, next)
    && forall k | k in cache ::
         && k != NoZone && k.n < next && cache[k].fetchedAt <= now
         && (k.n in zones ==> Explained(k, cache[k], zones[k.n], unseen))
  }

  ghost predicate CacheKnown(e: Env, v: View) {
    Accounted(v.cache, v.unseen, v.zones, v.nextZone, e.now)
  }

  /** An entry still in use is what GetHostedZone would answer exactly when no change of its zone's VPCs went unseen. */
  lemma AgreesIff(cache: map<ZoneRef, CacheEntry>, unseen: set<(ZoneRef, Id)>, zones: map<Id, Zone>, next: Id, now: nat,
                  k: ZoneRef)
    requires Accounted(cache, unseen, zones, next, now) && Fresh(cache, k, now)
    ensures AgreesAt(cache, k, zones, now) <==> LiveZone(k, zones) && forall x :: (k, x) !in unseen
  {
    if LiveZone(k, zones) {
      assert Explained(k, cache[k], zones[k.n], unseen);
      if forall x :: (k, x) !in unseen {
        assert cache[k].vpcs == zones[k.n].vpcs;
      }
    }
  }

  lemma AccountedLater(cache: map<ZoneRef, CacheEntry>, unseen: set<(ZoneRef, Id)>, zones: map<Id, Zone>, next: Id,
                       now: nat, now': nat)
    requires Accounted(cache, unseen, zones, next, now) && now <= now'
    ensures Accounted(cache, unseen, zones, next, now')
  {
  }

  /** Zones may be added under new ids, go, and change in what is not cached. */
  lemma AccountedElsewhere(cache: map<ZoneRef, CacheEntry>, unseen: set<(ZoneRef, Id)>, zones: map<Id, Zone>, next: Id,
                           zones': map<Id, Zone>, next': Id, now: nat)
    requires Accounted(cache, unseen, zones, next, now) && ZoneIds(zones', next') && next <= next'
    requires forall i | i in zones' ::
      next <= i || (i in zones && zones'[i].name == zones[i].name && zones'[i].vpcs == zones[i].vpcs)
    ensures Accounted(cache, unseen, zones', next', now)
  {
    forall k | k in cache && k.n in zones'
      ensures Explained(k, cache[k], zones'[k.n], unseen)
    {
      assert Explained(k, cache[k], zones[k.n], unseen);
    }
  }

  /** The association of these VPCs with the zone changed, or changed back. */
  function Toggled(unseen: set<(ZoneRef, Id)>, k: ZoneRef, vpcs: set<Id>): (t: set<(ZoneRef, Id)>)
    ensures forall j, x :: (j, x) in t <==> ((j, x) in unseen) != (j == k && x in vpcs)
  {
    (set p | p in unseen && !(p.0 == k && p.1 in vpcs)) + set x | x in vpcs && (k, x) !in unseen :: (k, x)
  }

  /** Nothing told the operator of it. */
  function Missed(unseen: set<(ZoneRef, Id)>, zone: Id, vpcs: set<Id>): (t: set<(ZoneRef, Id)>)
    ensures forall j, x :: (j, x) in t <==> ((j, x) in unseen) != (j != NoZone && j.n == zone && x in vpcs)
  {
    Toggled(Toggled(unseen, Bare(zone), vpcs), Prefixed(zone), vpcs)
  }

  /** A successful call told the operator, who drops what is cached under the spelling used. */
  function Told(unseen: set<(ZoneRef, Id)>, ref: ZoneRef, vpc: Id): set<(ZoneRef, Id)>
    requires ref != NoZone
  {
    Toggled(unseen, if ref.Bare? then Prefixed(ref.n) else Bare(ref.n), {vpc})
  }

  /** GetHostedZone has answered for this spelling. */
  function Answered(unseen: set<(ZoneRef, Id)>, ref: ZoneRef): (t: set<(ZoneRef, Id)>)
    ensures forall j, x :: (j, x) in t <==> (j, x) in unseen && j != ref
  {
    set p | p in unseen && p.0 != ref
  }

  lemma AccountedAnswer(cache: map<ZoneRef, CacheEntry>, unseen: set<(ZoneRef, Id)>, zones: map<Id, Zone>, next: Id,
                        now: nat, ref: ZoneRef)
    requires Accounted(cache, unseen, zones, next, now) && LiveZone(ref, zones)
    ensures Accounted(cache[ref := CacheEntry(zones[ref.n].name, zones[ref.n].vpcs, now)], Answered(unseen, ref), zones,
      next, now)
  {
    forall k | k in cache && k != ref && k.n in zones
      ensures Explained(k, cache[k], zones[k.n], Answered(unseen, ref))
    {
      assert Explained(k, cache[k], zones[k.n], unseen);
    }
  }

  /** One more VPC is associated with a zone; the operator has been told, or not. */
  lemma AccountedAssociation(cache: map<ZoneRef, CacheEntry>, unseen: set<(ZoneRef, Id)>, zones: map<Id, Zone>,
                             next: Id,
                             now: nat, ref: ZoneRef, vpc: Id)
    requires Accounted(cache, unseen, zones, next, now) && LiveZone(ref, zones) && vpc !in zones[ref.n].vpcs
    ensures Accounted(cache - {ref}, Told(unseen, ref, vpc), zones[ref.n := WithVpc(zones[ref.n], vpc)], next, now)
    ensures Accounted(cache, Missed(unseen, ref.n, {vpc}), zones[ref.n := WithVpc(zones[ref.n], vpc)], next, now)
  {
    var zones' := zones[ref.n := WithVpc(zones[ref.n], vpc)];
    forall k | k in cache && k.n in zones'
      ensures k != ref ==> Explained(k, cache[k], zones'[k.n], Told(unseen, ref, vpc))
      ensures Explained(k, cache[k], zones'[k.n], Missed(unseen, ref.n, {vpc}))
    {
      assert Explained(k, cache[k], zones[k.n], unseen);
    }
  }

  ghost predicate KeysKept(zones: map<Id, Zone>, zones': map<Id, Zone>) {
    forall i | i in zones :: i in zones'
  }

  /** What agreed before agrees now. */
  ghost predicate AgreementKept(cache: map<ZoneRef, CacheEntry>, zones: map<Id, Zone>, cache': map<ZoneRef,
                                CacheEntry>, zones': map<Id, Zone>, now: nat) {
    forall k | AgreesAt(cache, k, zones, now) :: AgreesAt(cache', k, zones', now)
  }

  lemma AgreementSelf(cache: map<ZoneRef, CacheEntry>, zones: map<Id, Zone>, now: nat)
    ensures AgreementKept(cache, zones, cache, zones, now)
  {
  }

  lemma AgreementTwice(cache: map<ZoneRef, CacheEntry>, zones: map<Id, Zone>, cache': map<ZoneRef, CacheEntry>,
                       zones': map<Id, Zone>,
                       cache'': map<ZoneRef, CacheEntry>, zones'': map<Id, Zone>, now: nat)
    requires AgreementKept(cache, zones, cache', zones', now) && AgreementKept(cache', zones', cache'', zones'', now)
    ensures AgreementKept(cache, zones, cache'', zones'', now)
  {
  }

  lemma CacheInvKept(cache: map<ZoneRef, CacheEntry>, zones: map<Id, Zone>, cache': map<ZoneRef, CacheEntry>,
                     zones': map<Id, Zone>, now: nat, bare: bool)
    requires CacheInv(cache, zones, now, bare) && AgreementKept(cache, zones, cache', zones', now)
    requires KeysKept(zones, zones') && NoZone !in cache'
    ensures CacheInv(cache', zones', now, bare)
  {
    forall k | k in cache' && Fresh(cache', k, now)
      ensures LiveZone(k, zones')
    {
      if !Fresh(cache, k, now) {
        assert AgreesAt(cache, k, zones, now);
      }
    }
    forall k | k in cache' && k.Bare? == bare
      ensures AgreesAt(cache', k, zones', now)
    {
      assert AgreesAt(cache, k, zones, now);
    }
  }

  /** A zone id is written in the given spelling, or is empty. */
  predicate Spelled(ref: ZoneRef, bare: bool) {
    ref != NoZone ==> ref.Bare? == bare
  }

  lemma CacheInvAgrees(cache: map<ZoneRef, CacheEntry>, zones: map<Id, Zone>, now: nat, bare: bool, ref: ZoneRef)
    requires CacheInv(cache, zones, now, bare) && Spelled(ref, bare)
    ensures AgreesAt(cache, ref, zones, now)
  {
  }

  /** The association loop changes one zone and drops the entry it used; entries under the same spelling
      of other ids are untouched. */
  lemma CacheInvAssociated(cache: map<ZoneRef, CacheEntry>, zones: map<Id, Zone>, cache': map<ZoneRef, CacheEntry>,
                           zones': map<Id, Zone>, now: nat, bare: bool,
                           ref: ZoneRef, more: set<Id>)
    requires CacheInv(cache, zones, now, bare) && Spelled(ref, bare) && OnlyVpcsAdded(zones, zones', ref, more)
    requires cache' - {ref} == cache - {ref} && AgreesAt(cache', ref, zones', now) && NoZone !in cache'
    ensures CacheInv(cache', zones', now, bare)
  {
    forall k | k in cache'
      ensures Fresh(cache', k, now) ==> LiveZone(k, zones')
      ensures k.Bare? == bare ==> AgreesAt(cache', k, zones', now)
    {
      if k != ref {
        assert k in cache' - {ref} && (cache' - {ref})[k] == cache'[k];
        assert k in cache && cache[k] == cache'[k];
      }
    }
  }

  /** Every entry is an answer AWS once gave for that id. */
  ghost predicate Witnessed(cache: map<ZoneRef, CacheEntry>, answers: set<(nat, ZoneRef, ZoneInfo)>) {
    forall ref | ref in cache :: (cache[ref].fetchedAt, ref, Answer(ref, cache[ref])) in answers
  }

  /** getHostedZoneCached. */
  method GetHostedZoneCached(r: VpcEndpointReconciler, ref: ZoneRef) returns (res: Result<ZoneInfo>)
    modifies r`cache, r`unseen, r.aws`budget, r.aws`answers
    ensures r.aws.budget <= old(r.aws.budget)
    ensures old(r.aws.answers) <= r.aws.answers
    ensures Accounted(old(r.cache), old(r.unseen), r.aws.zones, r.aws.nextZone, r.aws.now) ==>
      Accounted(r.cache, r.unseen, r.aws.zones, r.aws.nextZone, r.aws.now)
    ensures Fresh(old(r.cache), ref, r.aws.now) ==>
      res == Ok(Answer(ref, old(r.cache)[ref])) && r.cache == old(r.cache) && r.aws.budget == old(r.aws.budget)
    ensures !Fresh(old(r.cache), ref, r.aws.now) ==>
      if res.Ok? then
        && r.aws.budget == old(r.aws.budget) && LiveZone(ref, r.aws.zones)
        && res.value == Info(ref.n, r.aws.zones[ref.n])
        && r.cache == old(r.cache)[ref := CacheEntry(res.value.name, res.value.vpcs, r.aws.now)]
      else
        && r.cache == old(r.cache) - {ref}
        && (r.aws.budget < old(r.aws.budget) || !LiveZone(ref, r.aws.zones))
    // the cache keeps agreeing with the world, and every answer is less than two minutes old
    ensures AgreementKept(old(r.cache), r.aws.zones, r.cache, r.aws.zones, r.aws.now)
    ensures Witnessed(old(r.cache), old(r.aws.answers)) ==> Witnessed(r.cache, r.aws.answers)
    ensures res.Ok? ==> ref != NoZone && res.value.id == ref.n
    ensures Witnessed(old(r.cache), old(r.aws.answers)) && res.Ok? ==>
      exists t :: (t, ref, res.value) in r.aws.answers && r.aws.now < t + 120
    // two minutes after it was fetched an entry is not used any more
    ensures ref in old(r.cache) && old(r.cache)[ref].fetchedAt + 120 <= r.aws.now && res.Ok? ==>
      LiveZone(ref, r.aws.zones) && res.value == ZoneInfo(ref.n, r.aws.zones[ref.n].name, r.aws.zones[ref.n].vpcs)
  {
    if ref in r.cache {
      if r.aws.now < r.cache[ref].fetchedAt + TTL {
        res := Ok(Answer(ref, r.cache[ref]));
        assert Witnessed(r.cache, r.aws.answers) ==> (r.cache[ref].fetchedAt, ref, res.value) in r.aws.answers;
        return;
      }
      r.cache := r.cache - {ref};
    }
    assert r.cache == old(r.cache) - {ref};
    res := r.aws.GetZone(ref);
    if res.Err? {
      return;
    }
    if Accounted(r.cache, r.unseen, r.aws.zones, r.aws.nextZone, r.aws.now) {
      AccountedAnswer(r.cache, r.unseen, r.aws.zones, r.aws.nextZone, r.aws.now, ref);
    }
    r.cache := r.cache[ref := CacheEntry(res.value.name, res.value.vpcs, r.aws.now)];
    r.unseen := Answered(r.unseen, ref);
    assert (r.aws.now, ref, res.value) in r.aws.answers;
  }

  /** invalidateHostedZoneCache. */
  method InvalidateHostedZoneCache(r: VpcEndpointReconciler, ref: ZoneRef)
    modifies r`cache
    ensures r.cache == old(r.cache) - {ref}
  {
    r.cache := r.cache - {ref};
  }

  function VpcsOf(associated: seq<AssociatedVpc>): set<Id> {
    set a | a in associated :: a.vpc
  }

  /** One further VPC: authorize, read its credentials, associate, drop the cached answer. `lost` is set
      when AWS carried the association out but the call came back with an error. */
  method AssociateOne(r: VpcEndpointReconciler, ref: ZoneRef, v: AssociatedVpc)
    returns (res: Result<()>, ghost lost: bool)
    modifies r`cache, r`unseen, r.k8s`budget, r.aws`zones, r.aws`authorized, r.aws`lost, r.aws`mutations, r.aws`budget
    ensures r.aws.budget <= old(r.aws.budget)
      && Spent(old(r.k8s.budget), old(r.k8s.failedWrites), r.k8s.budget, r.k8s.failedWrites)
    ensures r.aws.lost == old(r.aws.lost) + if lost then 1 else 0
    ensures Accounted(old(r.cache), old(r.unseen), old(r.aws.zones), r.aws.nextZone, r.aws.now) ==>
      Accounted(r.cache, r.unseen, r.aws.zones, r.aws.nextZone, r.aws.now)
    ensures res.Ok? ==>
      && !lost && r.cache == old(r.cache) - {ref}
      && r.aws.budget == old(r.aws.budget) && r.k8s.budget == old(r.k8s.budget)
      && v.secret in r.k8s.lookups.secrets && ref != NoZone && (ref.n, v.vpc) in r.aws.authorized
    ensures res.Err? ==> r.cache == old(r.cache)
    // nothing is associated without the other account's credentials
    ensures r.aws.zones != old(r.aws.zones) ==> v.secret in r.k8s.lookups.secrets
    ensures if res.Ok? || lost then
        && LiveZone(ref, old(r.aws.zones)) && v.vpc !in old(r.aws.zones)[ref.n].vpcs
        && r.aws.zones == old(r.aws.zones)[ref.n := WithVpc(old(r.aws.zones)[ref.n], v.vpc)]
      else r.aws.zones == old(r.aws.zones)
    ensures lost ==> r.aws.budget < old(r.aws.budget)
    ensures res.Err? && r.aws.budget == old(r.aws.budget) && r.k8s.budget == old(r.k8s.budget) ==>
      !LiveZone(ref, r.aws.zones) || v.vpc in r.aws.zones[ref.n].vpcs || v.secret !in r.k8s.lookups.secrets
  {
    lost := false;
    var authorized := r.aws.AuthorizeAssociation(ref, v.vpc);
    if authorized.Err? {
      return Err(authorized.error), lost;
    }
    var credentials := r.k8s.Read(if v.secret in r.k8s.lookups.secrets then Some(()) else None);
    if credentials.Err? {
      return Err(credentials.error), lost;
    }
    if Accounted(r.cache, r.unseen, r.aws.zones, r.aws.nextZone, r.aws.now) && v.vpc !in r.aws.zones[ref.n].vpcs {
      AccountedAssociation(r.cache, r.unseen, r.aws.zones, r.aws.nextZone, r.aws.now, ref, v.vpc);
    }
    ghost var applied;
    res, applied := r.aws.Associate(ref, v.vpc);
    if res.Err? {
      lost := applied;
      if applied {
        r.unseen := Missed(r.unseen, ref.n, {v.vpc});
      }
      return;
    }
    InvalidateHostedZoneCache(r, ref);
    r.unseen := Told(r.unseen, ref, v.vpc);
  }

  predicate DistinctVpcs(associated: seq<AssociatedVpc>) {
    forall i, j :: 0 <= i < j < |associated| ==> associated[i].vpc != associated[j].vpc
  }

  /** What the loop needs from its surroundings to get through. */
  predicate AssociationsHealthy(associated: seq<AssociatedVpc>, ref: ZoneRef, zones: map<Id, Zone>,
                                secrets: set<string>) {
    LiveZone(ref, zones) && DistinctVpcs(associated) && forall a | a in associated :: a.secret in secrets
  }

  lemma NoVpcsYet(associated: seq<AssociatedVpc>, known: set<Id>)
    ensures known + VpcsOf(associated[..0]) == known
  {
  }

  lemma VpcsUpTo(associated: seq<AssociatedVpc>, i: nat)
    requires i < |associated|
    ensures VpcsOf(associated[..i + 1]) == VpcsOf(associated[..i]) + {associated[i].vpc}
    ensures VpcsOf(associated[..i + 1]) <= VpcsOf(associated)
  {
    assert forall a | a in associated[..i + 1] :: a in associated[..i] || a == associated[i];
  }

  /** A loop that stops at a VPC that was not associated before, without a fault, has been asked for it twice, or lacks
      its credentials. */
  lemma StoppedUnhealthy(associated: seq<AssociatedVpc>, i: nat, ref: ZoneRef, known: set<Id>, zones: map<Id, Zone>,
                         secrets: set<string>)
    requires i < |associated| && associated[i].vpc !in known
    requires LiveZone(ref, zones) ==> zones[ref.n].vpcs == known + VpcsOf(associated[..i])
    requires !LiveZone(ref, zones) || associated[i].vpc in zones[ref.n].vpcs || associated[i].secret !in secrets
    ensures !AssociationsHealthy(associated, ref, zones, secrets)
  {
    assert associated[i] in associated;
  }

  /** Every VPC asked for is associated with the zone. */
  predicate AssociationsDone(associated: seq<AssociatedVpc>, ref: ZoneRef, zones: map<Id, Zone>) {
    associated != [] ==> LiveZone(ref, zones) && VpcsOf(associated) <= zones[ref.n].vpcs
  }

  /** The zone gained VPCs out of `more` and nothing else changed. */
  ghost predicate OnlyVpcsAdded(zones: map<Id, Zone>, zones': map<Id, Zone>, ref: ZoneRef, more: set<Id>) {
    if LiveZone(ref, zones) then
      && ref.n in zones'
      && zones' == zones[ref.n := zones[ref.n].(vpcs := zones'[ref.n].vpcs)]
      && zones[ref.n].vpcs <= zones'[ref.n].vpcs <= zones[ref.n].vpcs + more
    else zones' == zones
  }

  /** `known` and the cached entry are what GetHostedZone would answer now. */
  predicate Current(ref: ZoneRef, known: set<Id>, cache: map<ZoneRef, CacheEntry>, zones: map<Id, Zone>, now: nat) {
    LiveZone(ref, zones) && zones[ref.n].vpcs == known && AgreesAt(cache, ref, zones, now)
  }

  /** The loop over the VPCs asked for; `known` is what GetHostedZone answered. */
  method AssociateMissing(r: VpcEndpointReconciler, ref: ZoneRef, associated: seq<AssociatedVpc>, known: set<Id>)
    returns (res: Result<()>, ghost lost: Option<Id>)
    modifies r`cache, r`unseen, r.k8s`budget, r.aws`zones, r.aws`authorized, r.aws`lost, r.aws`mutations, r.aws`budget
    ensures r.aws.budget <= old(r.aws.budget)
      && Spent(old(r.k8s.budget), old(r.k8s.failedWrites), r.k8s.budget, r.k8s.failedWrites)
    ensures OnlyVpcsAdded(old(r.aws.zones), r.aws.zones, ref, VpcsOf(associated))
    ensures r.cache == old(r.cache) || r.cache == old(r.cache) - {ref}
    ensures Accounted(old(r.cache), old(r.unseen), old(r.aws.zones), r.aws.nextZone, r.aws.now) ==>
      Accounted(r.cache, r.unseen, r.aws.zones, r.aws.nextZone, r.aws.now)
    ensures lost.Some? ==> res.Err? && r.aws.budget < old(r.aws.budget)
    ensures r.aws.lost == old(r.aws.lost) + if lost.Some? then 1 else 0
    ensures res.Ok? ==> r.aws.budget == old(r.aws.budget) && r.k8s.budget == old(r.k8s.budget)
    ensures res.Ok? ==> forall a | a in associated && a.vpc !in known :: a.secret in r.k8s.lookups.secrets
    ensures VpcsOf(associated) <= known ==>
      res.Ok? && r.aws.mutations == old(r.aws.mutations) && r.aws.zones == old(r.aws.zones) && r.cache == old(r.cache)
    ensures Current(ref, known, old(r.cache), old(r.aws.zones), r.aws.now) ==>
      && (if lost.None? then AgreesAt(r.cache, ref, r.aws.zones, r.aws.now)
          else Fresh(r.cache, ref, r.aws.now) ==> r.aws.zones[ref.n].vpcs == r.cache[ref].vpcs + {lost.value})
      && (res.Ok? ==> r.aws.zones[ref.n].vpcs == known + VpcsOf(associated))
      && (res.Err? && r.aws.budget == old(r.aws.budget) && r.k8s.budget == old(r.k8s.budget) ==>
            !AssociationsHealthy(associated, ref, r.aws.zones, r.k8s.lookups.secrets))
  {
    hide Accounted, AssociationsHealthy, DistinctVpcs, VpcsOf;
    lost := None;
    ghost var accounted := Accounted(r.cache, r.unseen, r.aws.zones, r.aws.nextZone, r.aws.now);
    NoVpcsYet(associated, known);
    ghost var current := Current(ref, known, r.cache, r.aws.zones, r.aws.now);
    for i := 0 to |associated|
      invariant r.aws.budget == old(r.aws.budget) && r.k8s.budget == old(r.k8s.budget)
      invariant OnlyVpcsAdded(old(r.aws.zones), r.aws.zones, ref, VpcsOf(associated[..i]))
      invariant r.cache == old(r.cache) || r.cache == old(r.cache) - {ref}
      invariant accounted ==> Accounted(r.cache, r.unseen, r.aws.zones, r.aws.nextZone, r.aws.now)
      invariant r.aws.lost == old(r.aws.lost)
      invariant forall j | 0 <= j < i && associated[j].vpc !in known :: associated[j].secret in r.k8s.lookups.secrets
      invariant current ==> Current(ref, known + VpcsOf(associated[..i]), r.cache, r.aws.zones, r.aws.now)
      invariant VpcsOf(associated) <= known ==>
        r.aws.mutations == old(r.aws.mutations) && r.aws.zones == old(r.aws.zones) && r.cache == old(r.cache)
    {
      VpcsUpTo(associated, i);
      if associated[i].vpc !in known {
        ghost var missed;
        assert old(r.cache) - {ref} - {ref} == old(r.cache) - {ref};
        res, missed := AssociateOne(r, ref, associated[i]);
        if res.Err? {
          lost := if missed then Some(associated[i].vpc) else None;
          if current && r.aws.budget == old(r.aws.budget) && r.k8s.budget == old(r.k8s.budget) {
            StoppedUnhealthy(associated, i, ref, known, r.aws.zones, r.k8s.lookups.secrets);
          }
          return;
        }
      }
    }
    assert associated[..|associated|] == associated;
    res := Ok(());
  }

  /** validateR53HostedZoneAuthorization. `lost` is the VPC whose association AWS carried out although
      the call failed. */
  method ValidateR53HostedZoneAuthorization(r: VpcEndpointReconciler) returns (res: Result<()>, ghost lost: Option<Id>)
    modifies r`cache, r`unseen, r.k8s`budget, r.aws`zones, r.aws`authorized, r.aws`lost, r.aws`mutations, r.aws`budget
    modifies r.aws`answers
    ensures r.aws.budget <= old(r.aws.budget)
      && Spent(old(r.k8s.budget), old(r.k8s.failedWrites), r.k8s.budget, r.k8s.failedWrites)
    ensures OnlyVpcsAdded(old(r.aws.zones), r.aws.zones, r.status.zone, VpcsOf(r.vpce.spec.dns.associated))
    ensures r.cache - {r.status.zone} == old(r.cache) - {r.status.zone}
    ensures Accounted(old(r.cache), old(r.unseen), old(r.aws.zones), r.aws.nextZone, r.aws.now) ==>
      Accounted(r.cache, r.unseen, r.aws.zones, r.aws.nextZone, r.aws.now)
    ensures r.aws.lost == old(r.aws.lost) + if lost.Some? then 1 else 0
    ensures Witnessed(old(r.cache), old(r.aws.answers)) ==> Witnessed(r.cache, r.aws.answers)
    ensures lost.Some? ==> res.Err? && r.aws.budget < old(r.aws.budget)
    ensures AgreesAt(old(r.cache), r.status.zone, old(r.aws.zones), r.aws.now) ==>
      // agreement of the entry the loop uses survives unless an association was carried out unnoticed
      && (if lost.None? then AgreesAt(r.cache, r.status.zone, r.aws.zones, r.aws.now)
          else Fresh(r.cache, r.status.zone, r.aws.now) ==>
            LiveZone(r.status.zone, r.aws.zones)
              && r.aws.zones[r.status.zone.n].vpcs == r.cache[r.status.zone].vpcs + {lost.value})
      // success means that all are associated; with nothing missing nothing is sent
      && (res.Ok? ==> AssociationsDone(r.vpce.spec.dns.associated, r.status.zone, r.aws.zones))
      && (AssociationsDone(r.vpce.spec.dns.associated, r.status.zone, old(r.aws.zones)) ==>
            r.aws.zones == old(r.aws.zones) && r.aws.mutations == old(r.aws.mutations))
      && (res.Err? && r.aws.budget == old(r.aws.budget) && r.k8s.budget == old(r.k8s.budget) ==>
            && r.vpce.spec.dns.associated != []
            && !AssociationsHealthy(r.vpce.spec.dns.associated, r.status.zone, r.aws.zones, r.k8s.lookups.secrets))
  {
    hide DistinctVpcs, Accounted;
    lost := None;
    var associated, ref := r.vpce.spec.dns.associated, r.status.zone;
    if |associated| == 0 {
      return Ok(()), lost;
    }
    if ref == NoZone {
      return Err(Unhealthy), lost;
    }
    var resp := GetHostedZoneCached(r, ref);
    if resp.Err? {
      return Err(resp.error), lost;
    }
    ghost var zones := r.aws.zones;
    res, lost := AssociateMissing(r, ref, associated, resp.value.vpcs);
    assert LiveZone(ref, zones) && VpcsOf(associated) <= zones[ref.n].vpcs ==>
      zones[ref.n].vpcs + VpcsOf(associated) == zones[ref.n].vpcs;
  }
}
