/** cleanupAwsResources: tear down the record, the zone, the endpoint and the security group of a CR. */
module Cleanup {
  import opened Aws
  import opened Kube
  import opened Reconciler
  import opened HostedZoneCache
  import opened DnsStage
  import Naming

  /** The two agree on what a cleanup looks at; parseClusterInfo may have failed to save the rest. */
  predicate SameBut(st: Status, st': Status) {
    st' == st.(infra := st'.infra, service := st'.service, vpc := st'.vpc)
  }

  /** What cleaning up starts from: the object as persisted, its status up to what parseClusterInfo could not save. */
  ghost predicate Readable(r: VpcEndpointReconciler)
    reads r, r.k8s
  {
    r.k8s.present && r.vpce == r.k8s.stored && SameBut(r.status, r.k8s.status)
  }

  // ---- what a teardown aims at ----

  /** Whether the zone is torn down with the CR: only a zone the CR names the domain of, and not the
      cluster's own zone, as far as the cluster's base domain can be read. */
  predicate DeletesZone(dns: DnsSpec, base: Option<string>) {
    NamesDomain(dns) && if base.Some? then dns.domainName != base.value else IsHcp(dns)
  }

  /** The base domain must be readable, except for a hosted control plane. */
  predicate ZoneDecidable(dns: DnsSpec, base: Option<string>) {
    NamesDomain(dns) ==> base.Some? || IsHcp(dns)
  }

  predicate Selected(k: RecordKey, name: Option<string>) {
    if name.Some? then k.name == name.value else !DefaultRecord(k)
  }

  /** A zone's records without those of one name, or without all but the default ones. */
  function Cleared(z: Zone, name: Option<string>): Zone {
    z.(records := map k | k in z.records && !Selected(k, name) :: z.records[k])
  }

  predicate HasRecord(st: Status) {
    st.recordCond == CondTrue && st.zone != NoZone && st.record != ""
  }

  function RecordTarget(st: Status, zones: map<Id, Zone>): map<Id, Zone> {
    if HasRecord(st) && st.zone.n in zones then zones[st.zone.n := Cleared(zones[st.zone.n], Some(st.record + "."))]
      else zones
  }

  /** The zones once everything the CR owns is gone from them. */
  function ZoneTarget(dns: DnsSpec, base: Option<string>, st: Status, zones: map<Id, Zone>): map<Id, Zone> {
    if st.zone != NoZone && DeletesZone(dns, base) then RecordTarget(st, zones) - {st.zone.n}
      else RecordTarget(st, zones)
  }

  /** The endpoints that nobody is deleting. */
  function Staying(endpoints: map<Id, Endpoint>): map<Id, Endpoint> {
    map i | i in endpoints && Live(endpoints[i]) && !endpoints[i].state.Deleting? :: endpoints[i]
  }

  function EndpointTarget(st: Status, endpoints: map<Id, Endpoint>): map<Id, Endpoint> {
    Staying(endpoints) - {st.endpoint}
  }

  function GroupTarget(st: Status, groups: map<Id, Group>): map<Id, Group> {
    groups - {st.group}
  }

  /** Zones may go or lose records; nothing else about them changes. */
  ghost predicate OnlyRecordsGo(zones: map<Id, Zone>, zones': map<Id, Zone>) {
    forall i | i in zones' :: i in zones && zones'[i] == zones[i].(records := zones'[i].records)
  }

  // ---- the records ----

  function Dropped(z: Zone, keys: set<RecordKey>): Zone {
    z.(records := z.records - keys)
  }

  /** Of the zone that the status records, the records of the recorded name are gone; no other record, here or in
      another zone, is touched. */
  ghost predicate RecordedNameGone(st: Status, zones: map<Id, Zone>, zones': map<Id, Zone>) {
    forall i | i in zones && i in zones' ::
      && (forall k :: k in zones'[i].records <==>
            k in zones[i].records && !(st.zone != NoZone && i == st.zone.n && k.name == st.record + "."))
      && forall k | k in zones'[i].records :: zones'[i].records[k] == zones[i].records[k]
  }

  lemma DroppedOneMore(z: Zone, keys: set<RecordKey>, k: RecordKey)
    ensures WithoutRecord(Dropped(z, keys), k) == Dropped(z, keys + {k})
  {
    assert z.records - keys - {k} == z.records - (keys + {k});
  }

  /** Clearing finishes what a partial clearing began. */
  lemma ClearedAgain(z: Zone, keys: set<RecordKey>, name: Option<string>)
    requires forall k | k in keys :: Selected(k, name)
    ensures Cleared(Dropped(z, keys), name) == Cleared(z, name)
    ensures (forall k | k in z.records && Selected(k, name) :: k in keys) ==> Dropped(z, keys) == Cleared(z, name)
  {
    assert Cleared(Dropped(z, keys), name).records == Cleared(z, name).records;
    if forall k | k in z.records && Selected(k, name) :: k in keys {
      assert Dropped(z, keys).records == Cleared(z, name).records;
    }
  }

  /** Whether a record stays, by its name and type. */
  ghost predicate Stays(k: RecordKey, name: Option<string>) {
    if name.Some? then k.name != name.value else k.rtype == NS || k.rtype == SOA
  }

  /** What stays is there all the time, and in the end nothing else is. */
  ghost predicate OnlyOthersStay(z: Zone, z': Zone, name: Option<string>, done: bool) {
    && (forall k | k in z.records && Stays(k, name) :: k in z'.records && z'.records[k] == z.records[k])
    && (done ==> forall k | k in z'.records :: k in z.records && Stays(k, name))
  }

  lemma ClearingKeeps(z: Zone, z': Zone, name: Option<string>, done: bool)
    requires Cleared(z', name) == Cleared(z, name) && (done ==> z' == Cleared(z, name))
    ensures OnlyOthersStay(z, z', name, done)
  {
    forall k | k in z.records && Stays(k, name)
      ensures k in z'.records && z'.records[k] == z.records[k]
    {
      assert k in Cleared(z, name).records;
      assert k in Cleared(z', name).records;
    }
  }

  /** The loops over the listed records: delete the selected ones, skip the others. */
  method DeleteRecords(aws: AwsClient, ref: ZoneRef, keys: seq<RecordKey>, name: Option<string>)
    returns (res: Result<()>)
    requires LiveZone(ref, aws.zones) && NoDuplicates(keys)
    requires forall k :: k in keys <==> k in aws.zones[ref.n].records
    modifies aws`zones, aws`mutations, aws`budget
    ensures aws.budget <= old(aws.budget)
    ensures LiveZone(ref, aws.zones)
    ensures aws.zones == old(aws.zones)[ref.n := aws.zones[ref.n]]
    ensures Cleared(aws.zones[ref.n], name) == Cleared(old(aws.zones)[ref.n], name)
    ensures OnlyRecordsGo(old(aws.zones), aws.zones)
    ensures res.Ok? ==> aws.budget == old(aws.budget) && aws.zones[ref.n] == Cleared(old(aws.zones)[ref.n], name)
    // by name and type: what goes when all is done, and what never goes
    ensures OnlyOthersStay(old(aws.zones)[ref.n], aws.zones[ref.n], name, res.Ok?)
    ensures res.Err? ==> aws.budget < old(aws.budget)
    ensures res.Err? ==> res.error != Dependency
  {
    hide Cleared, WithoutRecord, OnlyOthersStay;
    ghost var zones, zone := aws.zones, aws.zones[ref.n];
    ghost var dropped: set<RecordKey> := {};
    assert Dropped(zone, dropped).records == zone.records;
    for i := 0 to |keys|
      invariant aws.budget == old(aws.budget)
      invariant LiveZone(ref, aws.zones) && aws.zones == zones[ref.n := Dropped(zone, dropped)]
      invariant forall k :: k in dropped <==> k in keys[..i] && Selected(k, name)
    {
      if Selected(keys[i], name) {
        assert keys[i] !in keys[..i] && keys[i] in keys;
        DroppedOneMore(zone, dropped, keys[i]);
        ClearedAgain(zone, dropped, name);
        ClearedAgain(zone, dropped + {keys[i]}, name);
        res := aws.DeleteRecord(ref, keys[i]);
        if res.Err? {
          ClearingKeeps(zone, aws.zones[ref.n], name, false);
          return;
        }
        dropped := dropped + {keys[i]};
      }
    }
    assert keys[..|keys|] == keys;
    ClearedAgain(zone, dropped, name);
    ClearingKeeps(zone, aws.zones[ref.n], name, true);
    res := Ok(());
  }

  function RecordCleared(st: Status): Status {
    st.(record := "", recordCond := CondFalse)
  }

  /** The zone that the recorded record was in is gone. */
  predicate RecordLost(st: Status, zones: map<Id, Zone>) {
    HasRecord(st) && !LiveZone(st.zone, zones)
  }

  /** What the first part of the cleanup promises. */
  ghost predicate RecordPhase(v: View, w: View, ok: bool) {
    && w == v.(status := w.status, kept := w.kept, zones := w.zones, answers := w.answers, mutations := w.mutations,
               awsBudget := w.awsBudget, failedWrites := w.failedWrites, k8sBudget := w.k8sBudget)
    && Spends(v, w) && v.answers <= w.answers
    && (w.kept == v.kept || w.kept == RecordCleared(v.status))
    && (w.status == v.status || w.status == RecordCleared(v.status))
    // whatever happens, what is left to do leads to the same zones
    && w.zones.Keys == v.zones.Keys && OnlyRecordsGo(v.zones, w.zones)
    && RecordTarget(w.kept, w.zones) == RecordTarget(v.status, v.zones)
    && (ok ==> SameBut(w.status, w.kept) && w.zones == RecordTarget(v.status, v.zones) && !HasRecord(w.status))
    && (NoFaults(v, w) ==> (ok <==> !RecordLost(v.status, v.zones)))
    // with faults or without, there is no way past a record whose zone is gone
    && (RecordLost(v.status, v.zones) ==> !ok && w.kept == v.kept && w.zones == v.zones)
  }

  /** The zone before and after some of its records were deleted. */
  ghost predicate PartlyCleared(st: Status, zones: map<Id, Zone>, zones': map<Id, Zone>) {
    && LiveZone(st.zone, zones) && LiveZone(st.zone, zones')
    && zones' == zones[st.zone.n := zones'[st.zone.n]] && OnlyRecordsGo(zones, zones')
    && Cleared(zones'[st.zone.n], Some(st.record + ".")) == Cleared(zones[st.zone.n], Some(st.record + "."))
  }

  lemma RecordRemoved(v: View, w: View, ok: bool)
    requires HasRecord(v.status) && PartlyCleared(v.status, v.zones, w.zones)
    requires w == v.(status := w.status, kept := w.kept, zones := w.zones, answers := w.answers,
                     mutations := w.mutations,
                     awsBudget := w.awsBudget, failedWrites := w.failedWrites, k8sBudget := w.k8sBudget)
    requires Spends(v, w) && v.answers <= w.answers
    requires SameBut(v.status, v.kept) && (w.status == v.status || w.status == RecordCleared(v.status))
    requires w.kept == v.kept || (w.kept == RecordCleared(v.status) && w.zones == RecordTarget(v.status, v.zones))
    requires ok ==> w.kept == w.status == RecordCleared(v.status)
    requires ok || !NoFaults(v, w)
    ensures RecordPhase(v, w, ok)
  {
    hide Cleared;
  }

  lemma RecordKept(v: View, w: View)
    requires SameBut(v.status, v.kept) && w == v.(answers := w.answers, awsBudget := w.awsBudget)
    requires w.awsBudget <= v.awsBudget && v.answers <= w.answers
    requires HasRecord(v.status)
    requires w.awsBudget == v.awsBudget ==> !LiveZone(v.status.zone, v.zones)
    ensures RecordPhase(v, w, false)
  {
  }

  /** Deletes the records of the recorded name and forgets that name. */
  method RemoveRecord(r: VpcEndpointReconciler) returns (res: Result<()>)
    requires Readable(r) && r.status.zone != NoZone && r.status.record != ""
    modifies r`status, r.k8s`status, r.k8s`failedWrites, r.k8s`budget, r.aws`zones, r.aws`mutations, r.aws`budget
    modifies r.aws`answers
    ensures HasRecord(old(r.status)) ==> RecordPhase(old(r.ViewOf()), r.ViewOf(), res.Ok?)
    ensures res.Ok? ==> Readable(r)
    ensures res.Err? ==> res.error != Dependency
  {
    hide Cleared, RecordPhase, OnlyRecordsGo, Naming.GetClusterLegacyTagKey;
    ghost var v := r.ViewOf();
    var zone := r.aws.GetZone(r.status.zone);
    if zone.Err? {
      if HasRecord(v.status) {
        RecordKept(v, r.ViewOf());
      }
      return Err(zone.error);
    }
    var listed := r.aws.ListRecords(r.status.zone);
    if listed.Err? {
      if HasRecord(v.status) {
        RecordKept(v, r.ViewOf());
      }
      return Err(listed.error);
    }
    res := DeleteRecords(r.aws, r.status.zone, listed.value, Some(r.status.record + "."));
    if res.Ok? {
      r.status := r.status.(record := "", recordCond := CondFalse);
      res := r.SaveStatus();
    }
    if HasRecord(v.status) {
      RecordRemoved(v, r.ViewOf(), res.Ok?);
    }
  }

  /** The record part of cleanupAwsResources. A zone that is not recorded would be looked for, but a True record
      condition comes with a recorded zone. */
  method CleanUpRecord(r: VpcEndpointReconciler) returns (res: Result<()>)
    requires Readable(r) && (RecordNamed(r.status) || r.Synced())
    modifies r`status, r`cache, r`unseen, r.k8s`status, r.k8s`failedWrites, r.k8s`budget
    modifies r.aws`zones, r.aws`nextZone, r.aws`mutations, r.aws`creations, r.aws`budget, r.aws`answers
    ensures RecordNamed(old(r.status)) ==> RecordPhase(old(r.ViewOf()), r.ViewOf(), res.Ok?)
    ensures RecordNamed(old(r.status)) && old(r.status.recordCond) == CondTrue && res.Ok? ==>
      RecordedNameGone(old(r.status), old(r.aws.zones), r.aws.zones)
    ensures res.Ok? ==> Readable(r)
    ensures RecordNamed(old(r.status)) && res.Err? ==> res.error != Dependency
  {
    hide ZoneRel, RecordTarget, RecordedNameGone, Naming.GetClusterLegacyTagKey;
    res := Ok(());
    if r.status.recordCond == CondTrue {
      if r.status.zone == NoZone {
        res := ValidateR53PrivateHostedZone(r);
        if res.Err? {
          return;
        }
      }
      if r.status.zone != NoZone && r.status.record != "" {
        res := RemoveRecord(r);
      }
    }
    if !HasRecord(old(r.status)) {
      NoRecordNoTarget(old(r.status), old(r.aws.zones));
      NoRecordNoTarget(old(r.k8s.status), old(r.aws.zones));
    } else {
      TargetLacksName(old(r.status), old(r.aws.zones));
    }
  }

  lemma TargetLacksName(st: Status, zones: map<Id, Zone>)
    requires HasRecord(st)
    ensures RecordedNameGone(st, zones, RecordTarget(st, zones))
  {
  }

  lemma NoRecordNoTarget(st: Status, zones: map<Id, Zone>)
    requires !HasRecord(st)
    ensures RecordTarget(st, zones) == zones
  {
  }

  // ---- the zone ----

  /** The zone is left alone, partly cleared or gone; it is forgotten only once it is gone. */
  ghost predicate ZoneRemoval(v: View, w: View, ok: bool)
    requires v.status.zone != NoZone
  {
    var id := v.status.zone.n;
    && w == v.(status := w.status, kept := w.kept, zones := w.zones, mutations := w.mutations,
               awsBudget := w.awsBudget, failedWrites := w.failedWrites, k8sBudget := w.k8sBudget)
    && Spends(v, w)
    && (w.kept == v.kept || (w.kept == v.status.(zone := NoZone) && id !in w.zones))
    && (w.status == v.status || w.status == v.status.(zone := NoZone))
    && w.zones - {id} == v.zones - {id} && w.zones.Keys <= v.zones.Keys && OnlyRecordsGo(v.zones, w.zones)
    && (ok ==> id !in w.zones && SameBut(w.status, w.kept))
    && (NoFaults(v, w) ==> ok)
  }

  method ForgetZone(r: VpcEndpointReconciler) returns (res: Result<()>)
    requires Readable(r)
    modifies r`status, r.k8s`status, r.k8s`failedWrites, r.k8s`budget
    ensures Spent(old(r.k8s.budget), old(r.k8s.failedWrites), r.k8s.budget, r.k8s.failedWrites)
    ensures r.k8s.status == old(r.k8s.status) || r.k8s.status == old(r.status).(zone := NoZone)
    ensures res.Ok? ==> r.k8s.status == r.status && r.k8s.budget == old(r.k8s.budget)
    ensures res.Err? ==> r.k8s.budget < old(r.k8s.budget)
    ensures r.status == old(r.status).(zone := NoZone)
    ensures res.Err? ==> res.error != Dependency
  {
    r.status := r.status.(zone := NoZone);
    res := r.SaveStatus();
  }

  /** Clears a zone that AWS does not delete because of its records, and deletes it. */
  method ClearAndDeleteZone(aws: AwsClient, ref: ZoneRef) returns (res: Result<()>)
    requires LiveZone(ref, aws.zones)
    modifies aws`zones, aws`mutations, aws`budget
    ensures aws.budget <= old(aws.budget)
    ensures aws.zones.Keys <= old(aws.zones).Keys
    ensures aws.zones - {ref.n} == old(aws.zones) - {ref.n} && OnlyRecordsGo(old(aws.zones), aws.zones)
    ensures res.Ok? ==> aws.budget == old(aws.budget) && ref.n !in aws.zones
    ensures res.Err? ==> aws.budget < old(aws.budget)
    ensures res.Err? ==> res.error != Dependency
  {
    ghost var zones := aws.zones;
    var listed := aws.ListRecords(ref);
    if listed.Err? {
      return Err(listed.error);
    }
    res := DeleteRecords(aws, ref, listed.value, None);
    if res.Err? {
      return;
    }
    res := aws.DeleteZone(ref);
  }

  /** DeleteHostedZone and what follows from its answer. */
  method RemoveZone(r: VpcEndpointReconciler) returns (res: Result<()>)
    requires Readable(r) && r.status.zone != NoZone
    modifies r`status, r.k8s`status, r.k8s`failedWrites, r.k8s`budget, r.aws`zones, r.aws`mutations, r.aws`budget
    ensures ZoneRemoval(old(r.ViewOf()), r.ViewOf(), res.Ok?)
    ensures res.Ok? ==> Readable(r)
    ensures res.Err? ==> res.error != Dependency
  {
    hide OnlyDefaultRecords;
    res := r.aws.DeleteZone(r.status.zone);
    if res.Ok? {
      return;
    }
    if res.error == NotEmpty {
      res := ClearAndDeleteZone(r.aws, r.status.zone);
      if res.Err? {
        return;
      }
    } else if res.error != NotFound {
      return;
    }
    res := ForgetZone(r);
  }

  /** `seen` is the base domain a cleanup goes by: for a hosted control plane none when reading it failed. */
  predicate WentBy(dns: DnsSpec, base: Option<string>, seen: Option<string>, v: View, w: View) {
    seen == base || (seen.None? && base.Some? && IsHcp(dns) && w.k8sBudget < v.k8sBudget)
  }

  /** What the second part of the cleanup promises. */
  ghost predicate ZonePhase(dns: DnsSpec, base: Option<string>, seen: Option<string>, v: View, w: View, ok: bool) {
    && WentBy(dns, base, seen, v, w)
    && w == v.(status := w.status, kept := w.kept, zones := w.zones, mutations := w.mutations,
               awsBudget := w.awsBudget, failedWrites := w.failedWrites, k8sBudget := w.k8sBudget)
    && Spends(v, w)
    && (w.kept == v.kept || w.kept == v.status.(zone := NoZone))
    && (w.status == v.status || w.status == v.status.(zone := NoZone))
    && (ok ==> SameBut(w.status, w.kept))
    && ZoneTarget(dns, seen, w.kept, w.zones) == ZoneTarget(dns, seen, v.status, v.zones)
    && (ok ==> w.zones == ZoneTarget(dns, seen, v.status, v.zones))
    && w.zones.Keys <= v.zones.Keys && OnlyRecordsGo(v.zones, w.zones)
    // zones without a named domain stay, and so does the cluster's own zone where its domain is known
    && (!NamesDomain(dns) || seen == Some(dns.domainName) ==> w.zones == v.zones)
    && (NoFaults(v, w) ==> (ok <==> (v.status.zone != NoZone ==> ZoneDecidable(dns, base))))
  }

  lemma ZoneSkipped(dns: DnsSpec, base: Option<string>, v: View, w: View, ok: bool)
    requires SameBut(v.status, v.kept) && w == v.(k8sBudget := w.k8sBudget) && w.k8sBudget <= v.k8sBudget
    requires !HasRecord(v.status)
    requires ok ==> v.status.zone == NoZone || (ZoneDecidable(dns, base) && !DeletesZone(dns, base))
    requires !ok && NoFaults(v, w) ==> v.status.zone != NoZone && !ZoneDecidable(dns, base)
    ensures ZonePhase(dns, base, base, v, w, ok)
  {
    NoRecordNoTarget(v.status, v.zones);
  }

  lemma ZoneRemoved(dns: DnsSpec, base: Option<string>, seen: Option<string>, v: View, m: View, w: View, ok: bool)
    requires SameBut(v.status, v.kept) && !HasRecord(v.status) && v.status.zone != NoZone && NamesDomain(dns)
    requires m == v.(k8sBudget := m.k8sBudget) && m.k8sBudget <= v.k8sBudget && ZoneRemoval(m, w, ok)
    requires WentBy(dns, base, seen, v, m) && DeletesZone(dns, seen)
    ensures ZonePhase(dns, base, seen, v, w, ok)
  {
    NoRecordNoTarget(v.status, v.zones);
    NoRecordNoTarget(v.status, w.zones);
    NoRecordNoTarget(v.status.(zone := NoZone), w.zones);
    if v.status.zone.n !in w.zones {
      assert w.zones - {v.status.zone.n} == w.zones;
    }
  }

  /** The zone part of cleanupAwsResources. */
  method CleanUpZone(r: VpcEndpointReconciler) returns (res: Result<()>, ghost seen: Option<string>)
    requires Readable(r)
    modifies r`status, r.k8s`status, r.k8s`failedWrites, r.k8s`budget, r.aws`zones, r.aws`mutations, r.aws`budget
    ensures !HasRecord(old(r.status)) ==>
      ZonePhase(r.vpce.spec.dns, r.k8s.lookups.baseDomain, seen, old(r.ViewOf()), r.ViewOf(), res.Ok?)
    ensures res.Ok? ==> Readable(r)
    ensures res.Err? ==> res.error != Dependency
  {
    hide ZonePhase, ZoneRemoval, HasRecord;
    ghost var v, dns, base := r.ViewOf(), r.vpce.spec.dns, r.k8s.lookups.baseDomain;
    res, seen := Ok(()), base;
    if r.status.zone != NoZone && NamesDomain(r.vpce.spec.dns) {
      var read := r.k8s.Read(r.k8s.lookups.baseDomain);
      ghost var m := r.ViewOf();
      if read.Err? && !IsHcp(r.vpce.spec.dns) {
        res := Err(read.error);
      } else if read.Err? || r.vpce.spec.dns.domainName != read.value {
        seen := if read.Ok? then base else None;
        res := RemoveZone(r);
        if !HasRecord(v.status) {
          ZoneRemoved(dns, base, seen, v, m, r.ViewOf(), res.Ok?);
        }
        return;
      }
    }
    if !HasRecord(v.status) {
      ZoneSkipped(dns, base, v, r.ViewOf(), res.Ok?);
    }
  }

  // ---- the endpoint ----

  const POLL_INTERVAL: nat := 5
  const POLL_TIMEOUT: nat := 180

  /** Endpoint `id` may change state or go. Of the others, those that somebody is deleting may finish; the
      rest are as they were. */
  ghost predicate OnlyDeleting(m: map<Id, Endpoint>, m': map<Id, Endpoint>, id: Id) {
    && m'.Keys <= m.Keys
    && (id in m' ==> m'[id] == m[id].(state := m'[id].state))
    && forall i | i in m && i != id ::
         if m[i].state.Deleting? then i in m' ==> m'[i] == m[i] || m'[i] == m[i].(state := Deleted)
         else i in m' && m'[i] == m[i]
  }

  /** Endpoint `id` is as it was, or its deletion has been started, or is over. */
  predicate OwnFollows(now: nat, delay: nat, id: Id, m: map<Id, Endpoint>, m': map<Id, Endpoint>) {
    id in m && id in m' ==>
      var was, next := m[id].state, m'[id].state;
      next == was || next == Deleted || (was != Deleted && !was.Deleting? && next == Deleting(now + delay))
  }

  lemma StayingFollows(m: map<Id, Endpoint>, m': map<Id, Endpoint>, id: Id)
    requires OnlyDeleting(m, m', id)
    ensures Staying(m') - {id} == Staying(m) - {id}
  {
    var a, b := Staying(m') - {id}, Staying(m) - {id};
    forall i
      ensures i in a <==> i in b
      ensures i in a ==> a[i] == b[i]
    {
    }
  }

  /** AWS no longer has the endpoint, or only lists it as deleted. */
  predicate Gone(id: Id, endpoints: map<Id, Endpoint>) {
    id in endpoints ==> !Live(endpoints[id])
  }

  /** Whether polling from `now` on gets to see the end of the deletion: the last look is five seconds
      before the deadline. */
  predicate SeenGone(id: Id, endpoints: map<Id, Endpoint>, now: nat) {
    Gone(id, endpoints)
      || (endpoints[id].state.Deleting? && endpoints[id].state.until <= now + POLL_TIMEOUT - POLL_INTERVAL)
  }

  /** The polling loop; `polls` counts the describe calls. */
  method PollUntilGone(aws: AwsClient, id: Id) returns (res: Result<()>, ghost polls: nat)
    requires id != NO_ID
    modifies aws`now, aws`endpoints, aws`budget
    ensures aws.budget <= old(aws.budget)
    ensures polls <= POLL_TIMEOUT / POLL_INTERVAL && aws.now >= old(aws.now)
    ensures OnlyDeleting(old(aws.endpoints), aws.endpoints, id)
    ensures id in aws.endpoints ==>
      aws.endpoints[id].state == old(aws.endpoints)[id].state || aws.endpoints[id].state == Deleted
    ensures res.Ok? ==> Gone(id, aws.endpoints)
    ensures aws.budget == old(aws.budget) ==> (res.Ok? <==> SeenGone(id, old(aws.endpoints), old(aws.now)))
    // in numbers: at most 36 looks, and the last one after 175 seconds
    ensures polls <= 36
    ensures aws.budget == old(aws.budget) && id in old(aws.endpoints) && old(aws.endpoints)[id].state.Deleting? ==>
      (res.Ok? <==> old(aws.endpoints)[id].state.until <= old(aws.now) + 175)
    // without faults, an endpoint that is being deleted makes the loop fail only by taking too long
    ensures aws.budget == old(aws.budget) && res.Err? && id in old(aws.endpoints)
            && old(aws.endpoints)[id].state.Deleting? ==>
      aws.now >= old(aws.now) + POLL_TIMEOUT
      && (Gone(id, aws.endpoints) || aws.endpoints[id].state == old(aws.endpoints)[id].state)
    ensures res.Err? ==> res.error != Dependency
  {
    ghost var start, before := aws.now, aws.endpoints;
    var deadline := aws.now + POLL_TIMEOUT;
    polls := 0;
    while aws.now < deadline
      invariant aws.now >= start + polls * POLL_INTERVAL
      invariant aws.budget <= old(aws.budget)
      invariant aws.budget == old(aws.budget) ==> aws.now == start + polls * POLL_INTERVAL
      invariant polls <= POLL_TIMEOUT / POLL_INTERVAL
      invariant OnlyDeleting(before, aws.endpoints, id)
      invariant id in aws.endpoints ==>
        aws.endpoints[id].state == before[id].state || aws.endpoints[id].state == Deleted
      invariant polls == 0 ==> aws.endpoints == before
      invariant polls > 0 ==>
        && id in before && before[id].state.Deleting?
        && if before[id].state.until <= aws.now then Gone(id, aws.endpoints)
              else id in aws.endpoints && Live(aws.endpoints[id])
      invariant polls > 1 && aws.budget == old(aws.budget) ==> before[id].state.until > aws.now - POLL_INTERVAL
      decreases deadline - aws.now
    {
      var described := aws.DescribeEndpoint(id);
      polls := polls + 1;
      if described.Err? {
        return Err(described.error), polls;
      }
      if described.value.None? || described.value.value.state == Deleted {
        return Ok(()), polls;
      }
      if !described.value.value.state.Deleting? {
        return Err(Unhealthy), polls;
      }
      // the wait ends early when the reconcile is cancelled
      var cancelled := aws.Faulty();
      if cancelled {
        return Err(Fault), polls;
      }
      aws.Sleep();
    }
    res := Err(Unhealthy);
  }

  /** How long it takes until the endpoint is gone, if its deletion is started now or has been under way. */
  function Remaining(id: Id, endpoints: map<Id, Endpoint>, now: nat, delay: nat): nat {
    if Gone(id, endpoints) then 0
    else if !endpoints[id].state.Deleting? then delay
    else if endpoints[id].state.until <= now then 0 else endpoints[id].state.until - now
  }

  /** The deletion is over in time for the last poll. */
  predicate Deletable(id: Id, endpoints: map<Id, Endpoint>, now: nat, delay: nat) {
    Remaining(id, endpoints, now, delay) <= POLL_TIMEOUT - POLL_INTERVAL
  }

  /** An attempt that the loop gave up has used up its time. */
  predicate TimedOut(id: Id, m: map<Id, Endpoint>, now: nat, m': map<Id, Endpoint>, later: nat, delay: nat) {
    Remaining(id, m', later, delay) == 0
      || Remaining(id, m', later, delay) + POLL_TIMEOUT <= Remaining(id, m, now, delay)
  }

  /** What the third part of the cleanup promises; `now` and `delay` are taken at its start, `later` at its end. */
  ghost predicate EndpointPhase(now: nat, delay: nat, later: nat, v: View, w: View, ok: bool) {
    var id := v.status.endpoint;
    && w == v.(status := w.status, kept := w.kept, endpoints := w.endpoints, mutations := w.mutations,
               awsBudget := w.awsBudget, failedWrites := w.failedWrites, k8sBudget := w.k8sBudget)
    && Spends(v, w)
    && (w.kept == v.kept || (w.kept == v.status.(endpoint := NO_ID) && Gone(id, w.endpoints)))
    && OnlyDeleting(v.endpoints, w.endpoints, id) && OwnFollows(now, delay, id, v.endpoints, w.endpoints)
    && EndpointTarget(w.kept, w.endpoints) == EndpointTarget(v.status, v.endpoints)
    && (ok ==> SameBut(w.status, w.kept) && w.status == v.status.(endpoint := NO_ID) && Gone(id, w.endpoints))
    && (NoFaults(v, w) ==> (ok <==> Deletable(id, v.endpoints, now, delay)))
    && (NoFaults(v, w) && !ok ==> TimedOut(id, v.endpoints, now, w.endpoints, later, delay))
  }

  /** Deletes the endpoint with this id and waits for the end of it. */
  method DeleteAndWait(aws: AwsClient, id: Id) returns (res: Result<()>)
    requires id != NO_ID
    modifies aws`now, aws`endpoints, aws`mutations, aws`budget
    ensures aws.budget <= old(aws.budget)
    ensures OnlyDeleting(old(aws.endpoints), aws.endpoints, id)
    ensures OwnFollows(old(aws.now), aws.catalog.deleteDelay, id, old(aws.endpoints), aws.endpoints)
    ensures res.Ok? ==> Gone(id, aws.endpoints)
    ensures aws.now >= old(aws.now)
    ensures aws.budget == old(aws.budget) ==>
      && (res.Ok? <==> Deletable(id, old(aws.endpoints), old(aws.now), aws.catalog.deleteDelay))
      && (res.Err? ==> TimedOut(id, old(aws.endpoints), old(aws.now), aws.endpoints, aws.now, aws.catalog.deleteDelay))
    ensures res.Err? ==> res.error != Dependency
  {
    res := aws.DeleteEndpoint(id);
    if res.Err? {
      // already deleted
      return if res.error == NotFound then Ok(()) else res;
    }
    ghost var m := aws.endpoints;
    ghost var polls;
    res, polls := PollUntilGone(aws, id);
  }

  lemma EndpointDeleted(now: nat, delay: nat, later: nat, v: View, w: View, ok: bool)
    requires w == v.(status := w.status, kept := w.kept, endpoints := w.endpoints, mutations := w.mutations,
                     awsBudget := w.awsBudget, failedWrites := w.failedWrites, k8sBudget := w.k8sBudget)
    requires Spends(v, w) && NO_ID !in w.endpoints
    requires SameBut(v.status, v.kept)
    requires w.kept == v.kept || (w.kept == v.status.(endpoint := NO_ID) && Gone(v.status.endpoint, w.endpoints))
    requires OnlyDeleting(v.endpoints, w.endpoints, v.status.endpoint)
      && OwnFollows(now, delay, v.status.endpoint, v.endpoints, w.endpoints)
    requires ok ==>
      SameBut(w.status, w.kept) && w.status == v.status.(endpoint := NO_ID) && Gone(v.status.endpoint, w.endpoints)
    requires NoFaults(v, w) ==> (ok <==> Deletable(v.status.endpoint, v.endpoints, now, delay))
    requires NoFaults(v, w) && !ok ==> TimedOut(v.status.endpoint, v.endpoints, now, w.endpoints, later, delay)
    ensures EndpointPhase(now, delay, later, v, w, ok)
  {
    hide OnlyDeleting, Deletable, TimedOut;
    StayingFollows(v.endpoints, w.endpoints, v.status.endpoint);
    if Gone(v.status.endpoint, w.endpoints) {
      assert Staying(w.endpoints) - {v.status.endpoint} == Staying(w.endpoints) == Staying(w.endpoints) - {NO_ID};
    }
  }

  /** The endpoint part of cleanupAwsResources. */
  method CleanUpEndpoint(r: VpcEndpointReconciler) returns (res: Result<()>)
    requires Readable(r)
    modifies r`status, r.k8s`status, r.k8s`failedWrites, r.k8s`budget, r.aws`now, r.aws`endpoints, r.aws`mutations
    modifies r.aws`budget
    ensures EndpointPhase(old(r.aws.now), r.aws.catalog.deleteDelay, r.aws.now, old(r.ViewOf()), r.ViewOf(), res.Ok?)
    ensures r.aws.now >= old(r.aws.now)
    ensures res.Ok? ==> Readable(r)
    ensures res.Err? ==> res.error != Dependency
  {
    hide OnlyDeleting, Deletable, TimedOut, EndpointPhase;
    ghost var v, now := r.ViewOf(), r.aws.now;
    if r.status.endpoint != NO_ID {
      res := DeleteAndWait(r.aws, r.status.endpoint);
      if res.Ok? {
        r.status := r.status.(endpoint := NO_ID);
        res := r.SaveStatus();
      }
    } else {
      res := Ok(());
      assert OnlyDeleting(v.endpoints, v.endpoints, NO_ID)
        && Deletable(NO_ID, v.endpoints, now, r.aws.catalog.deleteDelay) by {
        NothingToDelete(v.endpoints, now, r.aws.catalog.deleteDelay);
      }
      assert r.status == r.status.(endpoint := NO_ID);
    }
    EndpointDeleted(now, r.aws.catalog.deleteDelay, r.aws.now, v, r.ViewOf(), res.Ok?);
  }

  lemma NothingToDelete(endpoints: map<Id, Endpoint>, now: nat, delay: nat)
    requires NO_ID !in endpoints
    ensures OnlyDeleting(endpoints, endpoints, NO_ID) && Deletable(NO_ID, endpoints, now, delay)
  {
  }

  // ---- the security group ----

  /** AWS deletes a group only when no live endpoint uses it. */
  ghost predicate GroupFree(id: Id, groups: map<Id, Group>, endpoints: map<Id, Endpoint>) {
    id in groups ==> forall e | e in endpoints && Live(endpoints[e]) :: id !in endpoints[e].groups
  }

  /** AWS keeps the group because a live endpoint uses it. */
  ghost predicate GroupHeld(id: Id, groups: map<Id, Group>, endpoints: map<Id, Endpoint>) {
    id in groups && exists e :: e in endpoints && endpoints[e].state != Deleted && id in endpoints[e].groups
  }

  /** What the last part of the cleanup promises. */
  ghost predicate GroupPhase(v: View, w: View, ok: bool) {
    && w == v.(groups := w.groups, mutations := w.mutations, awsBudget := w.awsBudget) && w.awsBudget <= v.awsBudget
    && (w.groups == v.groups || w.groups == GroupTarget(v.status, v.groups))
    && (ok ==> w.groups == GroupTarget(v.status, v.groups))
    && (NoFaults(v, w) ==> (ok <==> GroupFree(v.status.group, v.groups, v.endpoints)))
  }

  /** The security group part of cleanupAwsResources; the recorded id stays. */
  method CleanUpGroup(r: VpcEndpointReconciler) returns (res: Result<()>)
    modifies r.aws`groups, r.aws`mutations, r.aws`budget
    ensures GroupPhase(old(r.ViewOf()), r.ViewOf(), res.Ok?)
    ensures res.Err? && r.aws.budget == old(r.aws.budget) ==> res.error == Dependency
    ensures res == Err(Dependency) ==> GroupHeld(r.status.group, r.aws.groups, r.aws.endpoints)
  {
    if r.status.group != NO_ID {
      res := r.aws.DeleteGroup(r.status.group);
    } else {
      res := Ok(());
      assert r.aws.groups - {NO_ID} == r.aws.groups;
    }
  }

  // ---- the whole cleanup ----

  /** The status fields a cleanup may forget. */
  predicate StatusForgets(st: Status, st': Status) {
    && SameBut(st.(zone := st'.zone, record := st'.record, recordCond := st'.recordCond, endpoint := st'.endpoint), st')
    && (st'.zone == st.zone || st'.zone == NoZone)
    && (st'.endpoint == st.endpoint || st'.endpoint == NO_ID)
    && ((st'.record == st.record && st'.recordCond == st.recordCond)
          || (st'.record == "" && st'.recordCond == CondFalse))
  }

  /** No faults are needed for these to stop a cleanup for good: the zone of a recorded record is gone, the base domain
      is unreadable, another endpoint uses the group. */
  ghost predicate Unobstructed(e: Env, v: View) {
    && !RecordLost(v.status, v.zones)
    && (v.status.zone != NoZone ==> ZoneDecidable(e.spec.dns, e.lookups.baseDomain))
    && GroupFree(v.status.group, v.groups, v.endpoints - {v.status.endpoint})
  }

  /** Moreover the endpoint does not take too long. */
  ghost predicate Tearable(e: Env, v: View) {
    Unobstructed(e, v) && Deletable(v.status.endpoint, v.endpoints, e.now, e.catalog.deleteDelay)
  }

  /** No other endpoint with the CR's group is on its way out. */
  ghost predicate OthersSettled(v: View) {
    forall i | i in v.endpoints && i != v.status.endpoint && v.endpoints[i].state.Deleting? ::
      v.status.group !in v.endpoints[i].groups
  }

  /** What a cleanup promises, wherever it stops: the world it leads to in the end is still the same. */
  ghost predicate Torn(e: Env, v: View, w: View, ok: bool, seen: Option<string>) {
    var dns := e.spec.dns;
    && WentBy(dns, e.lookups.baseDomain, seen, v, w)
    && w == v.(status := w.status, kept := w.kept, groups := w.groups, endpoints := w.endpoints, zones := w.zones,
               answers := w.answers,
               mutations := w.mutations, awsBudget := w.awsBudget, failedWrites := w.failedWrites,
                 k8sBudget := w.k8sBudget)
    && Spends(v, w) && v.answers <= w.answers
    && StatusForgets(v.status, w.kept) && RecordNamed(w.kept) && (CacheKnown(e, v) ==> CacheKnown(e, w))
    && ZoneTarget(dns, seen, w.kept, w.zones) == ZoneTarget(dns, seen, v.status, v.zones)
    && EndpointTarget(w.kept, w.endpoints) == EndpointTarget(v.status, v.endpoints)
    && GroupTarget(w.kept, w.groups) == GroupTarget(v.status, v.groups)
    && (w.groups == v.groups || w.groups == GroupTarget(v.status, v.groups))
    && OnlyDeleting(v.endpoints, w.endpoints, v.status.endpoint)
    && OwnFollows(e.now, e.catalog.deleteDelay, v.status.endpoint, v.endpoints, w.endpoints)
    && (w.kept.endpoint != v.status.endpoint ==> Gone(v.status.endpoint, w.endpoints))
    && w.zones.Keys <= v.zones.Keys && (HasRecord(w.kept) ==> w.zones.Keys == v.zones.Keys)
    // zones without a named domain are never deleted, nor is the cluster's own zone where its domain is known
    && (!NamesDomain(dns) || seen == Some(dns.domainName) ==> w.zones.Keys == v.zones.Keys)
    && (RecordLost(v.status, v.zones) ==> !ok && SameBut(v.status, w.kept) && w.zones == v.zones)
    // success means that the end is reached
    && (ok ==>
          && Gone(v.status.endpoint, w.endpoints)
          && w.zones == ZoneTarget(dns, seen, v.status, v.zones)
          && Staying(w.endpoints) == EndpointTarget(v.status, v.endpoints)
          && w.groups == GroupTarget(v.status, v.groups))
  }

  /** Moreover a cleanup without faults succeeds exactly when nothing stands in its way; `later` is when it ends. */
  ghost predicate TeardownRel(e: Env, v: View, w: View, ok: bool, seen: Option<string>, later: nat) {
    && Torn(e, v, w, ok, seen)
    && (SameInputs(v.kept, w.kept) || SameInputs(v.status, w.kept))
    && (NoFaults(v, w) && Tearable(e, v) ==> ok)
    && (NoFaults(v, w) && ok && OthersSettled(v) ==> Tearable(e, v))
    && (NoFaults(v, w) && Unobstructed(e, v) && !ok ==>
          TimedOut(v.status.endpoint, v.endpoints, e.now, w.endpoints, later, e.catalog.deleteDelay))
  }

  lemma RecordsThenZone(e: Env, v: View, m: View, w: View, okRecord: bool, ok: bool, seen: Option<string>)
    requires RecordNamed(v.status) && SameBut(v.status, v.kept) && RecordPhase(v, m, okRecord)
    requires if okRecord then ZonePhase(e.spec.dns, e.lookups.baseDomain, seen, m, w, ok)
             else w == m && !ok && seen == e.lookups.baseDomain
    ensures ZonesCleaned(e, v, w, ok, seen)
  {
    hide Cleared;
  }

  /** The first two parts together. */
  ghost predicate ZonesCleaned(e: Env, v: View, w: View, ok: bool, seen: Option<string>) {
    var dns, base := e.spec.dns, e.lookups.baseDomain;
    && WentBy(dns, base, seen, v, w) && OnlyRecordsGo(v.zones, w.zones)
    && w == v.(status := w.status, kept := w.kept, zones := w.zones, answers := w.answers, mutations := w.mutations,
               awsBudget := w.awsBudget, failedWrites := w.failedWrites, k8sBudget := w.k8sBudget)
    && Spends(v, w) && v.answers <= w.answers
    && StatusForgets(v.status, w.kept) && w.kept.endpoint == v.status.endpoint && RecordNamed(w.kept)
    && (SameInputs(v.kept, w.kept) || SameInputs(v.status, w.kept))
    && SameInputs(v.status, w.status)
    && ZoneTarget(dns, seen, w.kept, w.zones) == ZoneTarget(dns, seen, v.status, v.zones)
    && w.zones.Keys <= v.zones.Keys && (HasRecord(w.kept) ==> w.zones.Keys == v.zones.Keys)
    && (!NamesDomain(dns) || seen == Some(dns.domainName) ==> w.zones.Keys == v.zones.Keys)
    && (ok ==> SameBut(w.status, w.kept) && w.zones == ZoneTarget(dns, seen, v.status, v.zones))
    && (RecordLost(v.status, v.zones) ==> !ok && SameBut(v.status, w.kept) && w.zones == v.zones)
    && (NoFaults(v, w) ==>
          (ok <==> !RecordLost(v.status, v.zones) && (v.status.zone != NoZone ==> ZoneDecidable(dns, base))))
  }

  /** What is cached does not depend on records. */
  lemma CleanedCacheKnown(e: Env, v: View, w: View)
    requires w.cache == v.cache && w.unseen == v.unseen && w.nextZone == v.nextZone && OnlyRecordsGo(v.zones, w.zones)
    ensures CacheKnown(e, v) ==> CacheKnown(e, w)
  {
    hide Explained;
    if CacheKnown(e, v) {
      AccountedElsewhere(v.cache, v.unseen, v.zones, v.nextZone, w.zones, w.nextZone, e.now);
    }
  }

  lemma ZonesThenEndpoint(e: Env, v: View, m: View, w: View, seen: Option<string>, later: nat)
    requires ZonesCleaned(e, v, m, true, seen)
    requires EndpointPhase(e.now, e.catalog.deleteDelay, later, m, w, false)
    ensures TeardownRel(e, v, w, false, seen, later)
  {
    hide ZoneTarget, Deletable, TimedOut, GroupFree, OnlyDeleting, Accounted, OnlyRecordsGo;
    CleanedCacheKnown(e, v, w);
    TargetIgnoresEndpoint(e.spec.dns, seen, m.status, m.kept, w.zones);
    TargetIgnoresEndpoint(e.spec.dns, seen, m.status, w.kept, w.zones);
  }

  lemma TargetIgnoresEndpoint(dns: DnsSpec, base: Option<string>, st: Status, st': Status, zones: map<Id, Zone>)
    requires SameBut(st.(endpoint := st'.endpoint), st')
    ensures ZoneTarget(dns, base, st', zones) == ZoneTarget(dns, base, st, zones)
  {
  }

  lemma OnlyZones(e: Env, v: View, w: View, seen: Option<string>, later: nat)
    requires ZonesCleaned(e, v, w, false, seen)
    ensures TeardownRel(e, v, w, false, seen, later)
  {
    hide ZoneTarget, Accounted, OnlyRecordsGo;
    CleanedCacheKnown(e, v, w);
  }

  lemma FreeAfterDeletion(group: Id, groups: map<Id, Group>, id: Id, m: map<Id, Endpoint>, m': map<Id, Endpoint>)
    requires OnlyDeleting(m, m', id) && Gone(id, m')
    ensures GroupFree(group, groups, m - {id}) ==> GroupFree(group, groups, m')
    ensures GroupFree(group, groups, m')
            && (forall i | i in m && i != id && m[i].state.Deleting? :: group !in m[i].groups) ==>
      GroupFree(group, groups, m - {id})
  {
    if GroupFree(group, groups, m - {id}) && group in groups {
      forall i | i in m' && Live(m'[i])
        ensures group !in m'[i].groups
      {
        assert i in m - {id};
      }
    }
    if GroupFree(group, groups, m') && group in groups {
      forall i | i in m - {id} && Live(m[i]) && !m[i].state.Deleting?
        ensures group !in m[i].groups
      {
        assert i in m';
      }
    }
  }

  lemma EndpointThenGroup(e: Env, v: View, m: View, n: View, w: View, ok: bool, seen: Option<string>, later: nat)
    requires ZonesCleaned(e, v, m, true, seen)
    requires EndpointPhase(e.now, e.catalog.deleteDelay, later, m, n, true)
    requires GroupPhase(n, w, ok) && NO_ID !in w.endpoints
    ensures TeardownRel(e, v, w, ok, seen, later)
  {
    hide ZoneTarget, Deletable, TimedOut, GroupFree, OnlyDeleting, Gone, Staying, Accounted, OnlyRecordsGo;
    CleanedCacheKnown(e, v, w);
    TargetIgnoresEndpoint(e.spec.dns, seen, m.status, m.kept, w.zones);
    TargetIgnoresEndpoint(e.spec.dns, seen, m.status, w.kept, w.zones);
    assert Staying(w.endpoints) == Staying(w.endpoints) - {NO_ID} by {
      NotStaying(NO_ID, w.endpoints);
    }
    FreeAfterDeletion(v.status.group, v.groups, v.status.endpoint, v.endpoints, n.endpoints);
    assert w.groups - {v.status.group} == v.groups - {v.status.group};
  }

  lemma NotStaying(id: Id, endpoints: map<Id, Endpoint>)
    requires id !in endpoints
    ensures Staying(endpoints) - {id} == Staying(endpoints)
  {
  }

  /** The record and the zone. */
  method CleanUpZones(r: VpcEndpointReconciler) returns (res: Result<()>, ghost seen: Option<string>)
    requires Readable(r) && (RecordNamed(r.status) || r.Synced())
    modifies r`status, r`cache, r`unseen, r.k8s`status, r.k8s`failedWrites, r.k8s`budget
    modifies r.aws`zones, r.aws`nextZone, r.aws`mutations, r.aws`creations, r.aws`budget, r.aws`answers
    ensures RecordNamed(old(r.status)) ==> ZonesCleaned(old(r.EnvOf()), old(r.ViewOf()), r.ViewOf(), res.Ok?, seen)
    ensures res.Ok? ==> Readable(r)
    ensures RecordNamed(old(r.status)) && res.Err? ==> res.error != Dependency
  {
    hide RecordPhase, ZonePhase, ZonesCleaned, RecordNamed, HasRecord, Naming.GetClusterLegacyTagKey;
    ghost var e, v := r.EnvOf(), r.ViewOf();
    res := CleanUpRecord(r);
    seen := r.k8s.lookups.baseDomain;
    ghost var m, ok := r.ViewOf(), res.Ok?;
    if RecordNamed(v.status) && ok {
      RecordPhaseEnds(v, m);
    }
    if res.Ok? {
      res, seen := CleanUpZone(r);
    }
    if RecordNamed(v.status) {
      RecordsThenZone(e, v, m, r.ViewOf(), ok, res.Ok?, seen);
    }
  }

  /** AWS's refusal to delete the group is told from everything else that stops a cleanup. */
  ghost predicate Refusal(e: Env, v: View, w: View, error: Error) {
    if error == Dependency then GroupHeld(v.status.group, w.groups, w.endpoints)
    else NoFaults(v, w) ==>
      || RecordLost(v.status, v.zones)
      || (v.status.zone != NoZone && !ZoneDecidable(e.spec.dns, e.lookups.baseDomain))
      || !Deletable(v.status.endpoint, v.endpoints, e.now, e.catalog.deleteDelay)
  }

  lemma ZonesFailed(e: Env, v: View, m: View, seen: Option<string>, error: Error)
    requires ZonesCleaned(e, v, m, false, seen) && error != Dependency
    ensures Refusal(e, v, m, error)
  {
    hide ZoneTarget, OnlyRecordsGo, Deletable;
  }

  lemma EndpointFailed(e: Env, v: View, m: View, n: View, seen: Option<string>, later: nat, error: Error)
    requires ZonesCleaned(e, v, m, true, seen) && SameBut(m.status, m.kept) && error != Dependency
    requires EndpointPhase(e.now, e.catalog.deleteDelay, later, m, n, false)
    ensures Refusal(e, v, n, error)
  {
    hide ZoneTarget, OnlyRecordsGo, Deletable, OnlyDeleting, OwnFollows, EndpointTarget, TimedOut;
  }

  lemma GroupFailed(e: Env, v: View, m: View, n: View, w: View, seen: Option<string>, later: nat, error: Error)
    requires ZonesCleaned(e, v, m, true, seen) && SameBut(m.status, m.kept)
    requires EndpointPhase(e.now, e.catalog.deleteDelay, later, m, n, true) && GroupPhase(n, w, false)
    requires if error == Dependency then GroupHeld(n.status.group, w.groups, w.endpoints) else w.awsBudget < n.awsBudget
    ensures Refusal(e, v, w, error)
  {
    hide ZoneTarget, OnlyRecordsGo, Deletable, OnlyDeleting, OwnFollows, EndpointTarget, TimedOut, GroupHeld, GroupFree;
  }

  /** cleanupAwsResources. */
  method CleanupAwsResources(r: VpcEndpointReconciler) returns (res: Result<()>, ghost seen: Option<string>)
    requires Readable(r) && (RecordNamed(r.status) || r.Synced())
    modifies r`status, r`cache, r`unseen, r.k8s`status, r.k8s`failedWrites, r.k8s`budget
    modifies r.aws`zones, r.aws`nextZone, r.aws`endpoints, r.aws`groups
    modifies r.aws`mutations, r.aws`creations, r.aws`budget, r.aws`answers, r.aws`now
    ensures RecordNamed(old(r.status)) ==>
      TeardownRel(old(r.EnvOf()), old(r.ViewOf()), r.ViewOf(), res.Ok?, seen, r.aws.now)
    ensures r.aws.now >= old(r.aws.now)
    ensures res.Ok? ==> Readable(r)
    ensures RecordNamed(old(r.status)) && res.Err? ==> Refusal(old(r.EnvOf()), old(r.ViewOf()), r.ViewOf(), res.error)
  {
    hide Refusal, GroupHeld, EndpointPhase, GroupPhase, TeardownRel, ZonesCleaned, RecordNamed, SameBut,
         Naming.GetClusterLegacyTagKey;
    ghost var e, v, named := r.EnvOf(), r.ViewOf(), RecordNamed(r.status);
    res, seen := CleanUpZones(r);
    ghost var m := r.ViewOf();
    if res.Err? {
      if named {
        OnlyZones(e, v, m, seen, r.aws.now);
        ZonesFailed(e, v, m, seen, res.error);
      }
      return;
    }
    res := CleanUpEndpoint(r);
    ghost var n := r.ViewOf();
    if res.Err? {
      if named {
        ZonesThenEndpoint(e, v, m, n, seen, r.aws.now);
        EndpointFailed(e, v, m, n, seen, r.aws.now, res.error);
      }
      return;
    }
    res := CleanUpGroup(r);
    if named {
      EndpointThenGroup(e, v, m, n, r.ViewOf(), res.Ok?, seen, r.aws.now);
      if res.Err? {
        GroupFailed(e, v, m, n, r.ViewOf(), seen, r.aws.now, res.error);
      }
    }
  }

  lemma RecordPhaseEnds(v: View, w: View)
    requires RecordPhase(v, w, true)
    ensures !HasRecord(w.status)
  {
  }

  // ---- what a finished cleanup leaves behind ----

  /** Of the groups, and of the endpoints nobody was deleting, exactly the recorded ones are gone: a group or endpoint
      that was created but never recorded stays behind. */
  lemma RecordedOnesGo(e: Env, v: View, w: View, seen: Option<string>)
    requires Torn(e, v, w, true, seen)
    ensures forall i | i in v.groups :: i in w.groups <==> i != v.status.group
    ensures forall i | i in v.endpoints && Live(v.endpoints[i]) && !v.endpoints[i].state.Deleting? ::
      (i in w.endpoints && Live(w.endpoints[i]) && !w.endpoints[i].state.Deleting?) <==> i != v.status.endpoint
  {
    hide RecordTarget, ZoneTarget, OnlyDeleting, OwnFollows;
    assert Staying(w.endpoints) == EndpointTarget(v.status, v.endpoints);
    forall i | i in v.endpoints && Live(v.endpoints[i]) && !v.endpoints[i].state.Deleting?
      ensures (i in w.endpoints && Live(w.endpoints[i]) && !w.endpoints[i].state.Deleting?) <==> i != v.status.endpoint
    {
      assert i in Staying(v.endpoints);
      assert i in Staying(w.endpoints) <==> i in EndpointTarget(v.status, v.endpoints);
    }
  }

  /** Exactly which zones go: the recorded one, when the CR names a domain, in .domainName or by reference, and that is
      not .domainName being the base domain the cleanup went by; without a base domain only for a hosted control plane.
      In the AutoDiscover and Id modes it stays unless the CR, beside choosing that mode, also names a domain. Of a zone
      that stays exactly the records of the recorded name go. */
  lemma ZonesThatGo(e: Env, v: View, w: View, seen: Option<string>)
    requires Torn(e, v, w, true, seen)
    ensures var dns := e.spec.dns;
            forall i | i in v.zones ::
              i !in w.zones <==>
              && v.status.zone != NoZone && i == v.status.zone.n && (dns.domainName != "" || dns.domainRef.Some?)
              && if seen.Some? then dns.domainName != seen.value
                 else dns.domainRef.Some? && dns.domainRef.value.hcpRef.Some?
    ensures forall i | i in w.zones :: i in v.zones && w.zones[i] == v.zones[i].(records := w.zones[i].records)
    ensures if v.status.recordCond == CondTrue && v.status.record != ""
      then RecordedNameGone(v.status, v.zones, w.zones)
            else forall i | i in w.zones :: w.zones[i] == v.zones[i]
  {
    hide OnlyDeleting, OwnFollows, Staying;
  }

  /** Every attempt, finished or not, leaves the other records of a zone that is not to go alone, and every zone but the
      recorded one. */
  lemma OthersAreKept(e: Env, v: View, w: View, ok: bool, seen: Option<string>, i: Id, k: RecordKey)
    requires Torn(e, v, w, ok, seen) && i in v.zones && k in v.zones[i].records
    requires v.status.zone == NoZone || i != v.status.zone.n
             || (k.name != v.status.record + "." && e.spec.dns.domainName == "" && e.spec.dns.domainRef == None)
    ensures i in w.zones && k in w.zones[i].records && w.zones[i].records[k] == v.zones[i].records[k]
  {
    hide OnlyDeleting, OwnFollows, Staying;
    var before, after := ZoneTarget(e.spec.dns, seen, v.status, v.zones), ZoneTarget(e.spec.dns, seen, w.kept, w.zones);
    assert i in before && k in before[i].records;
    assert i in after && k in after[i].records;
  }

  /** A record that was held is gone once the cleanup has finished, with its zone or out of it. */
  lemma HeldRecordIsGone(e: Env, v: View, w: View, seen: Option<string>, key: RecordKey)
    requires Torn(e, v, w, true, seen) && v.status.recordCond == CondTrue && RecordHolds(v.status, v.zones)
    requires v.status.record != "" && v.status.record[|v.status.record| - 1] != '.'
    requires key == RecordKey(v.status.record + ".", CNAME)
    ensures key in v.zones[v.status.zone.n].records
    ensures v.status.zone.n in w.zones ==> key !in w.zones[v.status.zone.n].records
  {
    ZonesThatGo(e, v, w, seen);
    hide Torn;
  }

  /** What becomes of the cluster's own zone, when a CR has come to use it: a finished cleanup deletes it exactly when
      the CR names a domain, by whatever field, unless .domainName is the base domain and that could be read. */
  lemma ClusterZoneGoesIff(e: Env, v: View, w: View, seen: Option<string>)
    requires Torn(e, v, w, true, seen) && LiveZone(v.status.zone, v.zones) && e.lookups.baseDomain.Some?
    requires IsClusterZone(v.zones[v.status.zone.n], e.lookups.baseDomain.value, v.status.vpc)
    ensures v.status.zone.n !in w.zones <==>
            NamesDomain(e.spec.dns) && (e.spec.dns.domainName != e.lookups.baseDomain.value || seen.None?)
    ensures seen.None? ==> IsHcp(e.spec.dns) && w.k8sBudget < v.k8sBudget
  {
    hide Cleared, OnlyDeleting, OwnFollows, Staying, IsClusterZone;
    ZonesThatGo(e, v, w, seen);
  }

  /** A CR with nothing but the cluster's own zone, and the state after its cleanup. */
  ghost predicate UsesOnlyClusterZone(e: Env, v: View) {
    && e.lookups.baseDomain == Some("example.com") && v.endpoints == map[] && v.groups == map[]
    && v.kept == v.status == Status("c1", "svc", 7, NO_ID, NO_ID, Bare(1), "", Unset, Unset, Unset, Unset, Unset)
    && v.zones == map[1 := NewZone("example.com", 7)]
  }

  lemma ClusterZoneCleaned(e: Env, v: View, w: View, seen: Option<string>)
    requires UsesOnlyClusterZone(e, v) && WentBy(e.spec.dns, e.lookups.baseDomain, seen, v, w)
      && DeletesZone(e.spec.dns, seen)
    requires w == v.(zones := map[], mutations := w.mutations, k8sBudget := w.k8sBudget) && w.k8sBudget <= v.k8sBudget
    ensures Torn(e, v, w, true, seen)
    ensures IsClusterZone(v.zones[1], "example.com", v.kept.vpc)
  {
    hide NewZone, Accounted;
    assert IsClusterZone(NewZone("example.com", 7), "example.com", 7) by {
      ZoneOfItsName("example.com", 7);
    }
    CleanedCacheKnown(e, v, w);
    assert v.zones - {1} == w.zones;
  }

  /** Inputs on which it is deleted. For a hosted control plane, one failed read of the base domain is enough. */
  lemma ClusterZoneLost(e: Env, v: View)
    requires UsesOnlyClusterZone(e, v) && IsHcp(e.spec.dns) && e.spec.dns.domainName == "example.com" && v.k8sBudget > 0
    ensures var w := v.(zones := map[], mutations := v.mutations + 1, k8sBudget := v.k8sBudget - 1);
            Torn(e, v, w, true, None) && IsClusterZone(v.zones[1], "example.com", v.kept.vpc)
  {
    ClusterZoneCleaned(e, v, v.(zones := map[], mutations := v.mutations + 1, k8sBudget := v.k8sBudget - 1), None);
  }

  /** A reference to the cluster's DNS object names the same domain, but not in .domainName, which alone is compared: no
      fault is needed, and every finished cleanup deletes the zone. */
  lemma ReferencedClusterZoneLost(e: Env, v: View)
    requires UsesOnlyClusterZone(e, v) && e.lookups.dnsRefDomain == Some("example.com")
    requires e.spec.dns.domainName == "" && e.spec.dns.domainRef == Some(DomainRef("", true, None))
    ensures DomainOf(e.spec.dns, e.lookups) == e.lookups.baseDomain
      && IsClusterZone(v.zones[1], "example.com", v.kept.vpc)
    ensures Torn(e, v, v.(zones := map[], mutations := v.mutations + 1), true, Some("example.com"))
    ensures forall w, seen | Torn(e, v, w, true, seen) :: 1 !in w.zones
  {
    ClusterZoneCleaned(e, v, v.(zones := map[], mutations := v.mutations + 1), Some("example.com"));
    hide NewZone, Torn;
    forall w, seen | Torn(e, v, w, true, seen)
      ensures 1 !in w.zones
    {
      ClusterZoneGoesIff(e, v, w, seen);
    }
  }

  /** So is the zone that a CR discovers, when the CR also names any other domain. */
  lemma DiscoveredZoneLost(e: Env, v: View)
    requires UsesOnlyClusterZone(e, v) && e.spec.dns.autoDiscover && e.spec.dns.domainName == "other.com"
    ensures ModeOf(e.spec.dns) == AutoDiscover && IsClusterZone(v.zones[1], "example.com", v.kept.vpc)
    ensures Torn(e, v, v.(zones := map[], mutations := v.mutations + 1), true, Some("example.com"))
    ensures forall w, seen | Torn(e, v, w, true, seen) :: 1 !in w.zones
  {
    ClusterZoneCleaned(e, v, v.(zones := map[], mutations := v.mutations + 1), Some("example.com"));
    hide NewZone, Torn;
    forall w, seen | Torn(e, v, w, true, seen)
      ensures 1 !in w.zones
    {
      ClusterZoneGoesIff(e, v, w, seen);
    }
  }

  /** A group and an endpoint that were created, but whose ids were never stored, survive every finished cleanup. */
  lemma OrphansStay(e: Env, v: View, w: View, seen: Option<string>, g: Group, x: Endpoint)
    requires Torn(e, v, w, true, seen) && v.status.group == v.status.endpoint == NO_ID
    requires v.groups == map[4 := g] && v.endpoints == map[5 := x] && x.state == Available
    ensures w.groups == v.groups && 5 in w.endpoints && w.endpoints[5].state == Available
  {
    hide RecordTarget, ZoneTarget, OwnFollows;
    RecordedOnesGo(e, v, w, seen);
    assert w.groups == v.groups;
  }

  lemma ZoneOfItsName(domain: string, vpc: Id)
    ensures domain != "" && domain[|domain| - 1] != '.' ==> IsClusterZone(NewZone(domain, vpc), domain, vpc)
  {
  }
}
