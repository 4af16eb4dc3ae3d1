/** Placing an endpoint in the candidate VPC that has the fewest endpoints. */
module VpcSelection {
  import opened Aws
  import opened Kube

  function InVpc(m: map<Id, Endpoint>, vpc: Id): set<Id> {
    set i: Id | i in m && m[i].vpc == vpc
  }

  /** How many endpoints a VPC has. */
  function Load(m: map<Id, Endpoint>, vpc: Id): nat {
    |InVpc(m, vpc)|
  }

  /** The listed ones among them. */
  function ListedInVpc(ids: seq<Id>, m: map<Id, Endpoint>, vpc: Id): set<Id>
    requires forall i | i in ids :: i in m
  {
    set i | i in ids && m[i].vpc == vpc
  }

  function Occurrences(ids: seq<Id>, m: map<Id, Endpoint>, vpc: Id): nat
    requires forall i | i in ids :: i in m
  {
    if ids == [] then 0
    else Occurrences(ids[..|ids| - 1], m, vpc) + if m[ids[|ids| - 1]].vpc == vpc then 1 else 0
  }

  /** Counting along a listing without repetitions counts a set. */
  lemma {:induction false} OccurrencesAreMembers(ids: seq<Id>, m: map<Id, Endpoint>, vpc: Id)
    requires NoDuplicates(ids) && forall i | i in ids :: i in m
    ensures Occurrences(ids, m, vpc) == |ListedInVpc(ids, m, vpc)|
  {
    if ids != [] {
      var n := |ids| - 1;
      OccurrencesAreMembers(ids[..n], m, vpc);
      assert ids == ids[..n] + [ids[n]];
      var front := ListedInVpc(ids[..n], m, vpc);
      assert ids[n] !in ids[..n];
      assert ListedInVpc(ids, m, vpc) == if m[ids[n]].vpc == vpc then front + {ids[n]} else front;
    } else {
      assert ListedInVpc(ids, m, vpc) == {};
    }
  }

  /** A listing of the endpoints in some VPCs counts the load of each of them, however it is paged. */
  lemma ListingCountsLoad(pages: seq<seq<Id>>, m: map<Id, Endpoint>, vpcs: seq<Id>, vpc: Id)
    requires NoDuplicates(Flatten(pages)) && vpc in vpcs
    requires forall i :: i in Flatten(pages) <==> i in m && m[i].vpc in vpcs
    ensures Occurrences(Flatten(pages), m, vpc) == Load(m, vpc)
  {
    OccurrencesAreMembers(Flatten(pages), m, vpc);
    assert ListedInVpc(Flatten(pages), m, vpc) == InVpc(m, vpc);
  }

  /** One page into the counters. */
  method CountPage(aws: AwsClient, counts: map<Id, nat>, page: seq<Id>) returns (counts': map<Id, nat>)
    requires forall i | i in page :: i in aws.endpoints && aws.endpoints[i].vpc in counts
    ensures counts'.Keys == counts.Keys
    ensures forall v | v in counts :: counts'[v] == counts[v] + Occurrences(page, aws.endpoints, v)
  {
    counts' := counts;
    for j := 0 to |page|
      invariant counts'.Keys == counts.Keys
      invariant forall v | v in counts :: counts'[v] == counts[v] + Occurrences(page[..j], aws.endpoints, v)
    {
      assert page[j] in page && page[..j + 1][..j] == page[..j];
      var vpc := aws.endpoints[page[j]].vpc;
      counts' := counts'[vpc := counts'[vpc] + 1];
    }
    assert page[..|page|] == page;
  }

  lemma {:induction false} OccurrencesAppend(a: seq<Id>, b: seq<Id>, m: map<Id, Endpoint>, vpc: Id)
    requires forall i | i in a + b :: i in m
    ensures (forall i | i in a :: i in m) && forall i | i in b :: i in m
    ensures Occurrences(a + b, m, vpc) == Occurrences(a, m, vpc) + Occurrences(b, m, vpc)
  {
    assert forall i | i in a :: i in a + b;
    assert forall i | i in b :: i in a + b;
    if b == [] {
      assert a + b == a;
    } else {
      var n := |b| - 1;
      assert (a + b)[..|a| + n] == a + b[..n];
      OccurrencesAppend(a, b[..n], m, vpc);
    }
  }

  lemma {:induction false} PageIsListed(pages: seq<seq<Id>>, p: nat)
    requires p < |pages|
    ensures Flatten(pages[..p + 1]) == Flatten(pages[..p]) + pages[p]
    ensures forall i | i in Flatten(pages[..p + 1]) :: i in Flatten(pages)
  {
    assert pages[..p + 1][..p] == pages[..p];
    if p + 1 == |pages| {
      assert pages[..p + 1] == pages;
    } else {
      var n := |pages| - 1;
      assert pages[..n][..p + 1] == pages[..p + 1] && pages[..n][p] == pages[p];
      PageIsListed(pages[..n], p);
    }
  }

  /** SelectVPCForVPCEndpoint: for every paging and every iteration order of the counters, one of the
      given VPCs with the fewest endpoints. */
  method SelectVPCForVPCEndpoint(aws: AwsClient, vpcs: seq<Id>) returns (r: Result<RealId>)
    modifies aws`budget
    ensures r.Ok? ==> aws.budget == old(aws.budget) && r.value in vpcs
    ensures r.Ok? ==> forall v | v in vpcs :: Load(aws.endpoints, r.value) <= Load(aws.endpoints, v)
    ensures r.Err? ==> aws.budget < old(aws.budget) || vpcs == [] || NO_ID in vpcs
    ensures aws.budget <= old(aws.budget)
  {
    if |vpcs| == 0 {
      return Err(Unhealthy);
    }
    var pages := aws.EndpointPages(vpcs);
    ghost var m := aws.endpoints;
    var counts: map<Id, nat> := map v | v in vpcs :: 0;
    for p := 0 to |pages|
      invariant aws.budget == old(aws.budget) && counts.Keys == set v | v in vpcs
      invariant forall i | i in Flatten(pages[..p]) :: i in m
      invariant forall v | v in counts :: counts[v] == Occurrences(Flatten(pages[..p]), m, v)
    {
      var f := aws.Faulty();
      if f {
        return Err(Fault);
      }
      PageIsListed(pages, p);
      assert forall i | i in pages[p] :: i in Flatten(pages[..p + 1]);
      forall v | v in counts
        ensures Occurrences(Flatten(pages[..p + 1]), m, v) ==
          Occurrences(Flatten(pages[..p]), m, v) + Occurrences(pages[p], m, v)
      {
        OccurrencesAppend(Flatten(pages[..p]), pages[p], m, v);
      }
      counts := CountPage(aws, counts, pages[p]);
    }
    assert pages[..|pages|] == pages;
    forall v | v in vpcs
      ensures counts[v] == Load(m, v)
    {
      ListingCountsLoad(pages, m, vpcs, v);
    }
    assert vpcs[0] in counts;
    var best := Least(counts);
    if best == NO_ID {
      return Err(Unhealthy);
    }
    r := Ok(best);
  }

  /** The loop over the counters, in any order. */
  method Least(counts: map<Id, nat>) returns (best: Id)
    requires counts != map[]
    ensures best in counts && forall v | v in counts :: counts[best] <= counts[v]
  {
    var keys := Enumerate(counts.Keys);
    assert forall v | v in counts :: v in keys;
    var least: Option<nat> := None;
    best := NO_ID;
    for k := 0 to |keys|
      invariant least.None? <==> k == 0
      invariant least.Some? ==> best in counts && counts[best] == least.value
      invariant forall j | 0 <= j < k :: counts[best] <= counts[keys[j]]
    {
      assert keys[k] in keys;
      if least.None? || counts[keys[k]] < least.value {
        least, best := Some(counts[keys[k]]), keys[k];
      }
    }
    var v :| v in counts;
    assert v in keys;
  }

  /** FilterVpcIdsByTags: every tag must be there with exactly its value. */
  predicate HasTags(vpc: Vpc, tags: seq<TagFilter>) {
    forall t | t in tags :: t.key in vpc.tags && vpc.tags[t.key] == t.value
  }

  method FilterVpcIdsByTags(aws: AwsClient, tags: seq<TagFilter>) returns (r: Result<seq<Id>>)
    modifies aws`budget
    ensures r.Ok? ==> aws.budget == old(aws.budget) && r.value != [] && NO_ID !in r.value
    ensures r.Ok? ==> forall x :: x in r.value <==> exists v :: v in aws.catalog.vpcs && HasTags(v, tags) && v.id == x
    ensures r.Err? ==>
      aws.budget < old(aws.budget)
        || (aws.budget == old(aws.budget) && (tags == [] || forall v | v in aws.catalog.vpcs :: !HasTags(v, tags)))
  {
    if |tags| == 0 {
      return Err(Unhealthy);
    }
    var f := aws.Faulty();
    if f {
      return Err(Fault);
    }
    var ids: seq<Id> := [];
    var all := aws.catalog.vpcs;
    for i := 0 to |all|
      invariant NO_ID !in ids
      invariant forall x :: x in ids <==> exists v :: v in all[..i] && HasTags(v, tags) && v.id == x
    {
      assert all[..i + 1] == all[..i] + [all[i]];
      if HasTags(all[i], tags) {
        ids := ids + [all[i].id];
      }
    }
    assert all[..|all|] == all;
    if |ids| == 0 {
      assert forall v | v in all && HasTags(v, tags) :: v.id in ids;
      return Err(Unhealthy);
    }
    r := Ok(ids);
  }

  // ---- placements over time ----

  predicate SpreadAtMost(m: map<Id, Endpoint>, vpcs: seq<Id>, bound: nat) {
    forall u, v | u in vpcs && v in vpcs :: Load(m, u) <= Load(m, v) + bound
  }

  lemma LoadAfterCreation(m: map<Id, Endpoint>, id: Id, e: Endpoint, vpc: Id)
    requires id !in m
    ensures Load(m[id := e], vpc) == Load(m, vpc) + if e.vpc == vpc then 1 else 0
  {
    assert InVpc(m[id := e], vpc) == if e.vpc == vpc then InVpc(m, vpc) + {id} else InVpc(m, vpc);
  }

  /** An endpoint put where the load is least does not widen the gap beyond one. */
  lemma PlacementKeepsSpread(m: map<Id, Endpoint>, vpcs: seq<Id>, bound: nat, id: Id, e: Endpoint)
    requires id !in m && SpreadAtMost(m, vpcs, bound) && bound >= 1
    requires e.vpc in vpcs && forall v | v in vpcs :: Load(m, e.vpc) <= Load(m, v)
    ensures SpreadAtMost(m[id := e], vpcs, bound)
  {
    forall u, v | u in vpcs && v in vpcs
      ensures Load(m[id := e], u) <= Load(m[id := e], v) + bound
    {
      LoadAfterCreation(m, id, e, u);
      LoadAfterCreation(m, id, e, v);
    }
  }

  /** Any number of placements, each one created before the next is chosen: the spread never exceeds the
      larger of one and what it was at first. */
  method PlaceEndpoints(aws: AwsClient, vpcs: seq<Id>, names: seq<string>, service: string, cluster: string,
                        ghost bound: nat)
    requires SpreadAtMost(aws.endpoints, vpcs, bound)
    requires forall i | i in aws.endpoints :: i < aws.nextEndpoint
    modifies aws`endpoints, aws`nextEndpoint, aws`mutations, aws`creations, aws`budget
    ensures SpreadAtMost(aws.endpoints, vpcs, if bound < 1 then 1 else bound)
  {
    hide SpreadAtMost, Load;
    ghost var b := if bound < 1 then 1 else bound;
    assert SpreadAtMost(aws.endpoints, vpcs, b) by {
      SpreadWeaker(aws.endpoints, vpcs, bound, b);
    }
    for k := 0 to |names|
      invariant SpreadAtMost(aws.endpoints, vpcs, b)
      invariant forall i | i in aws.endpoints :: i < aws.nextEndpoint
    {
      var vpc := SelectVPCForVPCEndpoint(aws, vpcs);
      if vpc.Ok? {
        ghost var m, id := aws.endpoints, aws.nextEndpoint;
        var created := aws.CreateEndpoint(names[k], vpc.value, service, cluster);
        if aws.endpoints != m {
          PlacementKeepsSpread(m, vpcs, b, id, aws.endpoints[id]);
        }
      }
    }
  }

  lemma SpreadWeaker(m: map<Id, Endpoint>, vpcs: seq<Id>, bound: nat, more: nat)
    requires SpreadAtMost(m, vpcs, bound) && bound <= more
    ensures SpreadAtMost(m, vpcs, more)
  {
  }
}
