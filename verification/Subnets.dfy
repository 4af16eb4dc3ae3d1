/** Which subnets an endpoint should have, and the VPC a list of subnets lies in. */
module Subnets {
  import opened Aws
  import opened Kube
  import opened SliceDiff

  const PRIVATE_SUBNET_TAG_KEY := "kubernetes.io/role/internal-elb"

  /** The DescribeSubnets filter for a list of tags: an empty key filters nothing, an empty value asks
      for the key only. */
  predicate Matches(s: Subnet, tags: seq<TagFilter>) {
    forall t | t in tags && t.key != "" :: t.key in s.tags && (t.value != "" ==> s.tags[t.key] == t.value)
  }

  function Select(subnets: seq<Subnet>, tags: seq<TagFilter>): seq<Subnet> {
    if subnets == [] then []
    else Select(subnets[..|subnets| - 1], tags) + if Matches(subnets[|subnets| - 1], tags) then [subnets[|subnets| - 1]]
      else []
  }

  predicate DistinctIds(subnets: seq<Subnet>) {
    forall i, j :: 0 <= i < j < |subnets| ==> subnets[i].id != subnets[j].id
  }

  lemma {:induction false} SelectKeepsDistinct(subnets: seq<Subnet>, tags: seq<TagFilter>)
    requires DistinctIds(subnets)
    ensures DistinctIds(Select(subnets, tags))
    ensures forall s | s in Select(subnets, tags) :: s in subnets
  {
    hide Matches;
    if subnets != [] {
      var n := |subnets| - 1;
      SelectKeepsDistinct(subnets[..n], tags);
      assert subnets == subnets[..n] + [subnets[n]];
      assert forall s | s in subnets[..n] :: s.id != subnets[n].id;
      assert forall s | s in Select(subnets[..n], tags) :: s.id != subnets[n].id;
    }
  }

  /** Private subnets by both tags, else by the cluster tag alone. */
  function Discovered(subnets: seq<Subnet>, clusterTag: string, tags: seq<TagFilter>): seq<Subnet> {
    var private := Select(subnets, tags + [TagFilter(clusterTag, ""), TagFilter(PRIVATE_SUBNET_TAG_KEY, "")]);
    if private != [] then private else Select(subnets, tags + [TagFilter(clusterTag, "")])
  }

  /** The subnet has a tag for each of the filters, with the value that is asked for, if any; an empty key asks for
      nothing. */
  ghost predicate Tagged(s: Subnet, tags: seq<TagFilter>) {
    forall i | 0 <= i < |tags| ::
      tags[i].key == "" || exists x :: (tags[i].key, x) in s.tags.Items && (tags[i].value == "" || tags[i].value == x)
  }

  /** A subnet that is tagged as asked, and as the cluster's when its key is given. */
  ghost predicate Candidate(s: Subnet, clusterTag: string, tags: seq<TagFilter>) {
    Tagged(s, tags) && (clusterTag == "" || clusterTag in s.tags.Keys)
  }

  ghost predicate IsPrivate(s: Subnet) {
    "kubernetes.io/role/internal-elb" in s.tags.Keys
  }

  lemma TaggedIff(s: Subnet, tags: seq<TagFilter>)
    ensures Tagged(s, tags) <==> Matches(s, tags)
  {
    if Tagged(s, tags) {
      forall t | t in tags && t.key != ""
        ensures t.key in s.tags && (t.value != "" ==> s.tags[t.key] == t.value)
      {
        var i :| 0 <= i < |tags| && tags[i] == t;
        var x :| (tags[i].key, x) in s.tags.Items && (tags[i].value == "" || tags[i].value == x);
      }
    }
    if Matches(s, tags) {
      forall i | 0 <= i < |tags| && tags[i].key != ""
        ensures exists x :: (tags[i].key, x) in s.tags.Items && (tags[i].value == "" || tags[i].value == x)
      {
        assert tags[i] in tags;
        assert (tags[i].key, s.tags[tags[i].key]) in s.tags.Items;
      }
    }
  }

  lemma {:induction false} SelectedIff(s: Subnet, subnets: seq<Subnet>, tags: seq<TagFilter>)
    ensures s in Select(subnets, tags) <==> s in subnets && Matches(s, tags)
  {
    hide Matches;
    if subnets != [] {
      SelectedIff(s, subnets[..|subnets| - 1], tags);
      assert subnets == subnets[..|subnets| - 1] + [subnets[|subnets| - 1]];
    }
  }

  lemma MatchesMore(s: Subnet, tags: seq<TagFilter>, key: string)
    ensures Matches(s, tags + [TagFilter(key, "")]) <==> Matches(s, tags) && (key == "" || key in s.tags)
  {
    assert TagFilter(key, "") in tags + [TagFilter(key, "")];
    assert forall t | t in tags :: t in tags + [TagFilter(key, "")];
  }

  /** Which subnets are discovered: of the tagged ones the private ones, and all of them when none is private. */
  lemma DiscoveredIff(s: Subnet, subnets: seq<Subnet>, clusterTag: string, tags: seq<TagFilter>)
    ensures s in Discovered(subnets, clusterTag, tags) <==>
            && s in subnets && Candidate(s, clusterTag, tags)
            && ((exists p :: p in subnets && Candidate(p, clusterTag, tags) && IsPrivate(p)) ==> IsPrivate(s))
  {
    hide Matches, Tagged, Select;
    var some := tags + [TagFilter(clusterTag, "")];
    var both := some + [TagFilter("kubernetes.io/role/internal-elb", "")];
    assert both == tags + [TagFilter(clusterTag, ""), TagFilter(PRIVATE_SUBNET_TAG_KEY, "")];
    forall p
      ensures p in Select(subnets, some) <==> p in subnets && Candidate(p, clusterTag, tags)
      ensures p in Select(subnets, both) <==> p in subnets && Candidate(p, clusterTag, tags) && IsPrivate(p)
    {
      SelectedIff(p, subnets, some);
      SelectedIff(p, subnets, both);
      MatchesMore(p, tags, clusterTag);
      MatchesMore(p, some, "kubernetes.io/role/internal-elb");
      TaggedIff(p, tags);
    }
    if Select(subnets, both) != [] {
      var p := Select(subnets, both)[0];
      assert p in Select(subnets, both);
    }
  }

  /** DescribeSubnetsByTags. */
  method DescribeSubnetsByTags(aws: AwsClient, tags: seq<TagFilter>) returns (r: Result<seq<Subnet>>)
    modifies aws`budget
    ensures r.Ok? ==> aws.budget == old(aws.budget) && r.value == Select(aws.catalog.subnets, tags)
    ensures r.Err? ==> aws.budget < old(aws.budget)
  {
    var f := aws.Faulty();
    if f {
      return Err(Fault);
    }
    var found: seq<Subnet> := [];
    var all := aws.catalog.subnets;
    for i := 0 to |all|
      invariant found == Select(all[..i], tags)
    {
      assert all[..i + 1][..i] == all[..i];
      if forall t | t in tags && t.key != "" ::
        t.key in all[i].tags && (t.value != "" ==> all[i].tags[t.key] == t.value) {
        found := found + [all[i]];
      }
    }
    assert all[..|all|] == all;
    r := Ok(found);
  }

  /** AutodiscoverPrivateSubnets. */
  method AutodiscoverPrivateSubnets(aws: AwsClient, clusterTag: string, tags: seq<TagFilter>)
    returns (r: Result<seq<Subnet>>)
    modifies aws`budget
    ensures r.Ok? ==>
      aws.budget == old(aws.budget) && r.value == Discovered(aws.catalog.subnets, clusterTag, tags) != []
    ensures r.Err? ==>
      aws.budget < old(aws.budget)
        || (aws.budget == old(aws.budget) && Discovered(aws.catalog.subnets, clusterTag, tags) == [])
  {
    hide Matches, Select;
    r := DescribeSubnetsByTags(aws, tags + [TagFilter(clusterTag, ""), TagFilter(PRIVATE_SUBNET_TAG_KEY, "")]);
    if r.Err? || r.value != [] {
      return;
    }
    r := DescribeSubnetsByTags(aws, tags + [TagFilter(clusterTag, "")]);
    if r.Ok? && r.value == [] {
      r := Err(Unhealthy);
    }
  }

  /** An endpoint can use a subnet in a zone the service offers, in the CR's VPC once that is known. */
  predicate Usable(s: Subnet, azs: seq<string>, vpc: Id) {
    s.az in azs && (vpc == NO_ID || s.vpc == vpc)
  }

  function UsableIds(subnets: seq<Subnet>, azs: seq<string>, vpc: Id): seq<Id> {
    if subnets == [] then []
    else
      var last := subnets[|subnets| - 1];
      UsableIds(subnets[..|subnets| - 1], azs, vpc) + if Usable(last, azs, vpc) then [last.id] else []
  }

  /** The nested loop over subnets and zones: the break takes each subnet once even if zones repeat. */
  method FilterUsable(subnets: seq<Subnet>, azs: seq<string>, vpc: Id) returns (ids: seq<Id>)
    ensures ids == UsableIds(subnets, azs, vpc)
  {
    ids := [];
    for i := 0 to |subnets|
      invariant ids == UsableIds(subnets[..i], azs, vpc)
    {
      ghost var before := ids;
      assert subnets[..i + 1][..i] == subnets[..i];
      var j := 0;
      while j < |azs|
        invariant 0 <= j <= |azs|
        invariant ids == before
        invariant subnets[i].az !in azs[..j]
      {
        if subnets[i].az == azs[j] {
          if vpc != NO_ID {
            if subnets[i].vpc == vpc {
              ids := ids + [subnets[i].id];
            }
          } else {
            ids := ids + [subnets[i].id];
          }
          break;
        }
        j := j + 1;
      }
    }
    assert subnets[..|subnets|] == subnets;
  }

  /** Distinct subnets stay distinct, and exactly the usable ones are kept. */
  lemma {:induction false} UsableIdsAre(subnets: seq<Subnet>, azs: seq<string>, vpc: Id)
    requires DistinctIds(subnets)
    ensures NoDuplicates(UsableIds(subnets, azs, vpc))
    ensures forall x :: x in UsableIds(subnets, azs, vpc) <==>
      exists s :: s in subnets && Usable(s, azs, vpc) && s.id == x
  {
    if subnets != [] {
      var n := |subnets| - 1;
      UsableIdsAre(subnets[..n], azs, vpc);
      assert subnets == subnets[..n] + [subnets[n]];
      var front := UsableIds(subnets[..n], azs, vpc);
      assert forall s | s in subnets[..n] :: s.id != subnets[n].id;
      assert subnets[n].id !in front;
    }
  }

  predicate AllInVpc(subnets: seq<Subnet>, vpc: Id) {
    forall s | s in subnets :: s.vpc == vpc
  }

  /** The subnets with the given ids, in listing order. */
  function WithIds(subnets: seq<Subnet>, ids: seq<Id>): seq<Subnet> {
    if subnets == [] then []
    else WithIds(subnets[..|subnets| - 1], ids) + if subnets[|subnets| - 1].id in ids then [subnets[|subnets| - 1]]
      else []
  }

  /** Some of the subnets are known, and all of those lie in the VPC. */
  predicate VpcOf(subnets: seq<Subnet>, ids: seq<Id>, vpc: Id) {
    WithIds(subnets, ids) != [] && AllInVpc(WithIds(subnets, ids), vpc)
  }

  lemma {:induction false} WithIdsAre(subnets: seq<Subnet>, ids: seq<Id>, s: Subnet)
    ensures s in WithIds(subnets, ids) <==> s in subnets && s.id in ids
  {
    if subnets != [] {
      WithIdsAre(subnets[..|subnets| - 1], ids, s);
      assert subnets == subnets[..|subnets| - 1] + [subnets[|subnets| - 1]];
    }
  }

  lemma VpcOfMeans(subnets: seq<Subnet>, ids: seq<Id>, vpc: Id)
    requires VpcOf(subnets, ids, vpc)
    ensures exists s :: s in subnets && s.id in ids
    ensures forall s | s in subnets && s.id in ids :: s.vpc == vpc
  {
    forall s
      ensures s in WithIds(subnets, ids) <==> s in subnets && s.id in ids
    {
      WithIdsAre(subnets, ids, s);
    }
    assert WithIds(subnets, ids)[0] in WithIds(subnets, ids);
  }

  /** DescribeSubnets by id: AWS refuses the request when it does not know one of the ids. */
  method DescribeSubnetsByIds(aws: AwsClient, ids: seq<Id>) returns (r: Result<seq<Subnet>>)
    modifies aws`budget
    ensures r.Ok? ==> aws.budget == old(aws.budget) && r.value == WithIds(aws.catalog.subnets, ids)
    ensures r.Err? ==>
      aws.budget < old(aws.budget)
        || (aws.budget == old(aws.budget) && exists x | x in ids :: forall s | s in aws.catalog.subnets :: s.id != x)
  {
    var f := aws.Faulty();
    if f {
      return Err(Fault);
    }
    if exists x | x in ids :: forall s | s in aws.catalog.subnets :: s.id != x {
      return Err(NotFound);
    }
    var found: seq<Subnet> := [];
    var all := aws.catalog.subnets;
    for i := 0 to |all|
      invariant found == WithIds(all[..i], ids)
    {
      assert all[..i + 1][..i] == all[..i];
      if all[i].id in ids {
        found := found + [all[i]];
      }
    }
    assert all[..|all|] == all;
    r := Ok(found);
  }

  /** GetVPCId: the one VPC the given subnets are in. */
  method GetVPCId(aws: AwsClient, ids: seq<Id>) returns (r: Result<RealId>)
    modifies aws`budget
    ensures r.Ok? ==> aws.budget == old(aws.budget) && ids != []
    ensures r.Ok? ==> VpcOf(aws.catalog.subnets, ids, r.value)
    ensures r.Err? ==>
      aws.budget < old(aws.budget) || (aws.budget == old(aws.budget) && !OneVpc(aws.catalog.subnets, ids))
  {
    if |ids| == 0 {
      return Err(Unhealthy);
    }
    var resp := DescribeSubnetsByIds(aws, ids);
    if resp.Err? {
      return Err(resp.error);
    }
    var found := resp.value;
    if |found| == 0 {
      return Err(Unhealthy);
    }
    var vpc := found[0].vpc;
    for i := 0 to |found|
      invariant forall j | 0 <= j < i :: found[j].vpc == vpc
    {
      if found[i].vpc != vpc {
        assert found[0] in found && found[i] in found;
        return Err(Unhealthy);
      }
    }
    r := Ok(vpc);
  }

  /** The subnets are known and lie in one VPC. */
  ghost predicate OneVpc(subnets: seq<Subnet>, ids: seq<Id>) {
    && ids != []
    && (forall x | x in ids :: exists s | s in subnets :: s.id == x)
    && exists vpc :: VpcOf(subnets, ids, vpc)
  }

  /** Removing first and adding second never puts two subnets into one zone. */
  lemma SubnetSwapKeepsZonesApart(current: set<Id>, expected: set<Id>, catalog: Catalog)
    requires OnePerZone(expected, catalog)
    ensures OnePerZone(current - (current - expected), catalog)
    ensures current - (current - expected) + (expected - current) == expected
  {
  }
}
