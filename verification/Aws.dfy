/** The part of AWS that the operator observes and changes: security groups, VPC endpoints and
    Route 53 private hosted zones, together with the SDK calls the operator makes on them. */
module Aws {

  /** AWS ids are opaque; 0 stands for the empty string. */
  type Id = nat

  const NO_ID: Id := 0

  type RealId = i: Id | i != NO_ID witness 1

  /** Resources by id; nothing has the empty id. */
  type Resources<T> = m: map<Id, T> | NO_ID !in m witness map[]

  /** A hosted zone id as the operator spells it: "", "Z1" or "/hostedzone/Z1". AWS accepts
      both non-empty spellings for the same zone. */
  datatype ZoneRef = NoZone | Bare(n: Id) | Prefixed(n: Id)

  /** Deleting(until): AWS finishes the deletion at time `until`. */
  datatype EndpointState =
    | PendingAcceptance
    | Pending
    | Available
    | Deleting(until: nat)
    | Deleted
    | Rejected
    | Failed

  datatype Peer = Cidr(block: string) | SourceGroup(group: Id) | OtherPeer

  datatype Rule = Rule(egress: bool, protocol: string, fromPort: int, toPort: int, peer: Peer)

  /** The tags the operator cares about: the Name tag ("" when absent), the cluster tag keys
      present, the operator tag and the red-hat-managed tag. */
  datatype Tags = Tags(name: string, clusters: set<string>, operator: bool, managed: bool)

  datatype Group = Group(vpc: Id, tags: Tags, rules: seq<Rule>)

  datatype Endpoint = Endpoint(vpc: Id, tags: Tags, service: string, state: EndpointState,
                               subnets: set<Id>, groups: set<Id>, privateDns: bool)

  datatype RecordType = NS | SOA | CNAME | OtherType

  datatype RecordKey = RecordKey(name: string, rtype: RecordType)

  /** What a record points to. EndpointDns(e) is the DNS name AWS derives from endpoint e. */
  datatype RecordValue = EndpointDns(endpoint: Id) | Text(text: string)

  datatype Zone = Zone(name: string, private: bool, vpcs: set<Id>, tags: Tags,
                       records: map<RecordKey, RecordValue>)

  datatype Subnet = Subnet(id: RealId, az: string, vpc: RealId, tags: map<string, string>)

  datatype Vpc = Vpc(id: RealId, tags: map<string, string>)

  /** Facts about the account that the operator only reads. */
  datatype Catalog = Catalog(vpcs: seq<Vpc>, subnets: seq<Subnet>, serviceAzs: map<string, seq<string>>,
                             nodeGroups: seq<Id>,
                             cidrs: map<Id, string>, deleteDelay: nat, firstState: EndpointState)

  /** How a call fails. Fault is an injected failure (throttling, crash, lost response, slow call);
      the others are AWS's own answers. */
  datatype Error = Fault | NotFound | NotEmpty | Dependency | Invalid | Unhealthy | Requeue

  datatype Result<+T> = Ok(value: T) | Err(error: Error)

  datatype Option<+T> = None | Some(value: T)

  predicate Owned(t: Tags, name: string, cluster: string) {
    t.name == name && cluster in t.clusters && t.operator
  }

  predicate HasDefaultTags(t: Tags, name: string, cluster: string) {
    Owned(t, name, cluster) && t.managed
  }

  function DefaultTags(name: string, cluster: string): Tags {
    Tags(name, {cluster}, true, true)
  }

  function AddDefaultTags(t: Tags, name: string, cluster: string): Tags {
    Tags(name, t.clusters + {cluster}, true, true)
  }

  /** The rule AWS puts on every new security group. */
  const ALLOW_ALL_EGRESS := Rule(true, "-1", -1, -1, Cidr("0.0.0.0/0"))

  function Flatten<T>(pages: seq<seq<T>>): seq<T> {
    if pages == [] then [] else Flatten(pages[..|pages| - 1]) + pages[|pages| - 1]
  }

  predicate NoDuplicates<T(==)>(s: seq<T>) {
    forall i, j :: 0 <= i < j < |s| ==> s[i] != s[j]
  }

  /** Live: everything except an endpoint that is only still listed as deleted. */
  predicate Live(e: Endpoint) {
    e.state != Deleted
  }

  predicate DefaultRecord(k: RecordKey) {
    k.rtype == NS || k.rtype == SOA
  }

  predicate OnlyDefaultRecords(z: Zone) {
    forall k | k in z.records :: DefaultRecord(k)
  }

  /** AWS allows one subnet per availability zone on an endpoint. */
  predicate OnePerZone(ids: set<Id>, catalog: Catalog) {
    forall s, t | s in catalog.subnets && t in catalog.subnets && s.id in ids && t.id in ids && s.id != t.id ::
      s.az != t.az
  }

  class AwsClient {
    var groups: Resources<Group>
    var endpoints: Resources<Endpoint>
    var zones: Resources<Zone>
    // (zone, VPC) pairs whose association another account may carry out
    var authorized: set<(Id, Id)>
    // ids handed out so far are below these
    var nextGroup: RealId
    var nextEndpoint: RealId
    var nextZone: RealId
    var catalog: Catalog
    var now: nat
    // how many calls have changed AWS, how many of them created a resource
    var mutations: nat
    var creations: nat
    // how many more calls the environment may make fail
    var budget: nat
    // how many associations were carried out although the call came back with an error
    ghost var lost: nat
    // every answer GetHostedZone has given, with the time it was true
    ghost var answers: set<(nat, ZoneRef, ZoneInfo)>

    constructor (catalog: Catalog, groups: Resources<Group>, endpoints: Resources<Endpoint>, zones: Resources<Zone>,
                 nextGroup: RealId, nextEndpoint: RealId, nextZone: RealId, now: nat, budget: nat)
      ensures this.catalog == catalog && this.now == now && this.budget == budget
      ensures this.groups == groups && this.endpoints == endpoints && this.zones == zones
      ensures this.nextGroup == nextGroup && this.nextEndpoint == nextEndpoint && this.nextZone == nextZone
      ensures mutations == 0 && creations == 0 && lost == 0 && answers == {} && authorized == {}
    {
      this.catalog, this.now, this.budget := catalog, now, budget;
      this.groups, this.endpoints, this.zones := groups, endpoints, zones;
      this.nextGroup, this.nextEndpoint, this.nextZone := nextGroup, nextEndpoint, nextZone;
      mutations, creations, lost, answers, authorized := 0, 0, 0, {}, {};
    }

    /** Every call starts by asking whether the environment makes it fail. */
    method Faulty() returns (f: bool)
      modifies this`budget
      ensures f ==> old(budget) > 0 && budget == old(budget) - 1
      ensures !f ==> budget == old(budget)
    {
      f := *;
      f := f && budget > 0;
      if f {
        budget := budget - 1;
      }
    }

    // ---- security groups ----

    /** FilterSecurityGroupById: an empty id asks nothing, an unknown one is not an error. */
    method DescribeGroup(id: Id) returns (r: Result<Option<Group>>)
      modifies this`budget
      ensures r.Ok? ==> budget == old(budget)
      ensures r.Err? ==> budget < old(budget)
      ensures r.Ok? ==> r.value == if id != NO_ID && id in groups then Some(groups[id]) else None
    {
      if id == NO_ID {
        return Ok(None);
      }
      var f := Faulty();
      if f {
        return Err(Fault);
      }
      r := Ok(if id in groups then Some(groups[id]) else None);
    }

    /** FilterSecurityGroupByDefaultTags, reduced to the first group listed. */
    method FindGroupByTags(name: string, cluster: string) returns (r: Result<Option<Id>>)
      modifies this`budget
      ensures r.Ok? ==> budget == old(budget)
      ensures r.Err? ==> budget < old(budget)
      ensures r.Ok? && r.value.Some? ==> r.value.value in groups && Owned(groups[r.value.value].tags, name, cluster)
      ensures r.Ok? && r.value.None? ==> forall i | i in groups :: !Owned(groups[i].tags, name, cluster)
    {
      var f := Faulty();
      if f {
        return Err(Fault);
      }
      if i :| i in groups && Owned(groups[i].tags, name, cluster) {
        r := Ok(Some(i));
      } else {
        r := Ok(None);
      }
    }

    /** CreateSecurityGroup and its waiter: a failure may come before or after the group exists. */
    method CreateGroup(name: string, vpc: Id, cluster: string) returns (r: Result<Id>)
      modifies this`groups, this`nextGroup, this`mutations, this`creations, this`budget
      ensures mutations == old(mutations) + 1 && creations == old(creations) + 1
      ensures r.Ok? ==> budget == old(budget) && r.value == old(nextGroup)
      ensures r.Err? ==> budget < old(budget)
      ensures
        || (groups == old(groups)[old(nextGroup) := Group(vpc, DefaultTags(name, cluster), [ALLOW_ALL_EGRESS])]
              && nextGroup == old(nextGroup) + 1)
        || (r.Err? && groups == old(groups) && nextGroup == old(nextGroup))
    {
      mutations, creations := mutations + 1, creations + 1;
      var before := Faulty();
      if before {
        return Err(Fault);
      }
      var id := nextGroup;
      groups := groups[id := Group(vpc, DefaultTags(name, cluster), [ALLOW_ALL_EGRESS])];
      nextGroup := nextGroup + 1;
      var after := Faulty();
      if after {
        return Err(Fault);
      }
      r := Ok(id);
    }

    /** CreateTags on one security group. */
    method TagGroup(id: Id, name: string, cluster: string) returns (r: Result<()>)
      modifies this`groups, this`mutations, this`budget
      ensures mutations == old(mutations) + 1
      ensures r.Ok? ==> budget == old(budget) && id in old(groups)
      ensures r.Err? ==> budget < old(budget) || (id !in groups && groups == old(groups))
      ensures
        || (id in old(groups)
              && groups == old(groups)[id :=
                    old(groups)[id].(tags := AddDefaultTags(old(groups)[id].tags, name, cluster))])
        || (r.Err? && groups == old(groups))
    {
      mutations := mutations + 1;
      var before := Faulty();
      if before {
        return Err(Fault);
      }
      if id !in groups {
        return Err(NotFound);
      }
      groups := groups[id := groups[id].(tags := AddDefaultTags(groups[id].tags, name, cluster))];
      var after := Faulty();
      r := if after then Err(Fault) else Ok(());
    }

    /** DescribeSecurityGroupRules. */
    method DescribeRules(id: Id) returns (r: Result<seq<Rule>>)
      modifies this`budget
      ensures r.Ok? ==> budget == old(budget)
      ensures r.Err? ==> budget < old(budget)
      ensures r.Ok? ==> r.value == if id in groups then groups[id].rules else []
    {
      var f := Faulty();
      r := if f then Err(Fault) else Ok(if id in groups then groups[id].rules else []);
    }

    /** FilterClusterNodeSecurityGroupsByDefaultTags. */
    method NodeGroups() returns (r: Result<seq<Id>>)
      modifies this`budget
      ensures r.Ok? ==> budget == old(budget) && r.value == catalog.nodeGroups
      ensures r.Err? ==> budget < old(budget)
    {
      var f := Faulty();
      r := if f then Err(Fault) else Ok(catalog.nodeGroups);
    }

    /** GetVpcCidrBlock. */
    method VpcCidr(vpc: Id) returns (r: Result<string>)
      modifies this`budget
      ensures r.Ok? ==> budget == old(budget) && vpc in catalog.cidrs && r.value == catalog.cidrs[vpc]
      ensures r.Err? ==> budget < old(budget) || (budget == old(budget) && vpc !in catalog.cidrs)
    {
      var f := Faulty();
      if f {
        return Err(Fault);
      }
      r := if vpc in catalog.cidrs then Ok(catalog.cidrs[vpc]) else Err(Unhealthy);
    }

    /** AuthorizeSecurityGroupIngress / Egress: all permissions are added or none; a permission that
        is already there, or that is sent twice, makes AWS reject the whole request. */
    method Authorize(id: Id, perms: seq<Rule>) returns (r: Result<()>)
      modifies this`groups, this`mutations, this`budget
      ensures mutations == old(mutations) + 1
      ensures r.Ok? ==> budget == old(budget)
      ensures r.Err? && budget == old(budget) ==>
        groups == old(groups)
          && (id in groups ==> !NoDuplicates(perms) || exists p | p in perms :: p in groups[id].rules)
      ensures
        || (id in old(groups) && NoDuplicates(perms) && (forall p | p in perms :: p !in old(groups)[id].rules) &&
            groups == old(groups)[id := old(groups)[id].(rules := old(groups)[id].rules + perms)])
        || (r.Err? && groups == old(groups))
      ensures budget <= old(budget)
    {
      mutations := mutations + 1;
      var before := Faulty();
      if before {
        return Err(Fault);
      }
      if id !in groups {
        return Err(NotFound);
      }
      if !NoDuplicates(perms) || exists p | p in perms :: p in groups[id].rules {
        return Err(Invalid);
      }
      groups := groups[id := groups[id].(rules := groups[id].rules + perms)];
      var after := Faulty();
      r := if after then Err(Fault) else Ok(());
    }

    /** DeleteSecurityGroup as the operator wraps it: a missing group is a success. */
    method DeleteGroup(id: Id) returns (r: Result<()>)
      modifies this`groups, this`mutations, this`budget
      ensures mutations == old(mutations) + 1
      ensures budget <= old(budget)
      ensures groups == old(groups) || groups == old(groups) - {id}
      ensures r.Ok? ==> budget == old(budget) && groups == old(groups) - {id}
      ensures r.Err? && budget == old(budget) ==>
        r.error == Dependency && groups == old(groups) && id in groups &&
        exists e | e in endpoints :: Live(endpoints[e]) && id in endpoints[e].groups
      ensures groups != old(groups) ==> forall e | e in endpoints && Live(endpoints[e]) :: id !in endpoints[e].groups
      ensures r == Err(Dependency) ==>
        groups == old(groups) && id in groups && exists e | e in endpoints ::
          Live(endpoints[e]) && id in endpoints[e].groups
    {
      mutations := mutations + 1;
      var before := Faulty();
      if before {
        return Err(Fault);
      }
      if id !in groups {
        assert groups == groups - {id};
        return Ok(());
      }
      if exists e | e in endpoints :: Live(endpoints[e]) && id in endpoints[e].groups {
        return Err(Dependency);
      }
      groups := groups - {id};
      var after := Faulty();
      r := if after then Err(Fault) else Ok(());
    }

    // ---- VPC endpoints ----

    /** DescribeSingleVPCEndpointById. */
    method DescribeEndpoint(id: Id) returns (r: Result<Option<Endpoint>>)
      modifies this`budget
      ensures r.Ok? ==> budget == old(budget)
      ensures r.Err? ==> budget < old(budget)
      ensures r.Ok? ==> r.value == if id != NO_ID && id in endpoints then Some(endpoints[id]) else None
      ensures r.Err? ==> r.error != Dependency
    {
      if id == NO_ID {
        return Ok(None);
      }
      var f := Faulty();
      if f {
        return Err(Fault);
      }
      r := Ok(if id in endpoints then Some(endpoints[id]) else None);
    }

    /** FilterVPCEndpointByDefaultTags, reduced to the first endpoint listed. */
    method FindEndpointByTags(cluster: string, name: string) returns (r: Result<Option<Id>>)
      modifies this`budget
      ensures r.Ok? ==> budget == old(budget)
      ensures r.Err? ==> budget < old(budget)
      ensures r.Ok? && r.value.Some? ==>
        r.value.value in endpoints && Owned(endpoints[r.value.value].tags, name, cluster)
      ensures r.Ok? && r.value.None? && cluster != "" ==>
        forall i | i in endpoints :: !Owned(endpoints[i].tags, name, cluster)
    {
      if cluster == "" {
        return Ok(None);
      }
      var f := Faulty();
      if f {
        return Err(Fault);
      }
      if i :| i in endpoints && Owned(endpoints[i].tags, name, cluster) {
        r := Ok(Some(i));
      } else {
        r := Ok(None);
      }
    }

    /** DescribeVpcEndpoints filtered by VPC: the ids of the endpoints in these VPCs, in any order and
        split into pages in any way. */
    method EndpointPages(vpcs: seq<Id>) returns (pages: seq<seq<Id>>)
      ensures NoDuplicates(Flatten(pages))
      ensures forall i :: i in Flatten(pages) <==> i in endpoints && endpoints[i].vpc in vpcs
    {
      var all: seq<Id> := Enumerate(set i | i in endpoints && endpoints[i].vpc in vpcs);
      pages := [];
      var done := 0;
      while done < |all|
        invariant done <= |all| && Flatten(pages) == all[..done]
      {
        var n: nat :| 0 < n <= |all| - done;
        assert (pages + [all[done..done + n]])[..|pages|] == pages
          && all[..done] + all[done..done + n] == all[..done + n];
        pages, done := pages + [all[done..done + n]], done + n;
      }
      assert all[..done] == all;
    }

    /** CreateDefaultInterfaceVPCEndpoint: no subnets, no security groups. */
    method CreateEndpoint(name: string, vpc: Id, service: string, cluster: string) returns (r: Result<Id>)
      modifies this`endpoints, this`nextEndpoint, this`mutations, this`creations, this`budget
      ensures mutations == old(mutations) + 1 && creations == old(creations) + 1
      ensures r.Ok? ==> budget == old(budget) && r.value == old(nextEndpoint)
      ensures r.Err? ==> budget < old(budget)
      ensures
        || (endpoints ==
              old(endpoints)[old(nextEndpoint) :=
                Endpoint(vpc, DefaultTags(name, cluster), service, catalog.firstState, {}, {}, false)]
                  && nextEndpoint == old(nextEndpoint) + 1)
        || (r.Err? && endpoints == old(endpoints) && nextEndpoint == old(nextEndpoint))
    {
      mutations, creations := mutations + 1, creations + 1;
      var before := Faulty();
      if before {
        return Err(Fault);
      }
      var id := nextEndpoint;
      endpoints := endpoints[id :=
        Endpoint(vpc, DefaultTags(name, cluster), service, catalog.firstState, {}, {}, false)];
      nextEndpoint := nextEndpoint + 1;
      var after := Faulty();
      if after {
        return Err(Fault);
      }
      r := Ok(id);
    }

    /** GetVpcEndpointServiceAZs. */
    method ServiceAzs(service: string) returns (r: Result<seq<string>>)
      modifies this`budget
      ensures r.Ok? ==>
        budget == old(budget) && service != "" && service in catalog.serviceAzs
          && r.value == catalog.serviceAzs[service]
      ensures r.Err? ==>
        budget < old(budget) || (budget == old(budget) && (service == "" || service !in catalog.serviceAzs))
    {
      if service == "" {
        return Err(Unhealthy);
      }
      var f := Faulty();
      if f {
        return Err(Fault);
      }
      r := if service in catalog.serviceAzs then Ok(catalog.serviceAzs[service]) else Err(Unhealthy);
    }

    /** DeleteVpcEndpoints for one id. The deletion takes deleteDelay; at the environment's expense
        somebody else may have removed the endpoint just before. */
    method DeleteEndpoint(id: Id) returns (r: Result<()>)
      modifies this`endpoints, this`mutations, this`budget
      ensures mutations == old(mutations) + 1
      ensures budget <= old(budget)
      ensures
        || endpoints == old(endpoints)
        || (r == Err(NotFound) && endpoints == old(endpoints) - {id} && budget < old(budget))
        || (id in old(endpoints) && Live(old(endpoints)[id])
              && DeletionStarted(old(endpoints), endpoints, id, now + catalog.deleteDelay))
      ensures r.Ok? ==>
        && budget == old(budget) && id in old(endpoints) && Live(old(endpoints)[id])
        && DeletionStarted(old(endpoints), endpoints, id, now + catalog.deleteDelay)
      ensures r.Err? && budget == old(budget) ==> r.error == NotFound && endpoints == old(endpoints)
      ensures r == Err(NotFound) ==> id in endpoints ==> !Live(endpoints[id])
      ensures r.Err? ==> r.error != Dependency
    {
      mutations := mutations + 1;
      var before := Faulty();
      if before {
        return Err(Fault);
      }
      var raced := Faulty();
      if raced {
        endpoints := endpoints - {id};
      }
      if id !in endpoints || !Live(endpoints[id]) {
        return Err(NotFound);
      }
      if !endpoints[id].state.Deleting? {
        endpoints := endpoints[id := endpoints[id].(state := Deleting(now + catalog.deleteDelay))];
      }
      var after := Faulty();
      r := if after then Err(Fault) else Ok(());
    }

    /** ModifyVpcEndpoint adding or removing subnets. */
    method ModifySubnets(id: Id, add: set<Id>, remove: set<Id>) returns (r: Result<()>)
      modifies this`endpoints, this`mutations, this`budget
      ensures mutations == old(mutations) + 1
      ensures r.Ok? ==> budget == old(budget)
      ensures r.Err? && budget == old(budget) ==>
        endpoints == old(endpoints) && (id in endpoints ==> !OnePerZone(endpoints[id].subnets - remove + add, catalog))
      ensures budget <= old(budget)
      ensures
        || (id in old(endpoints) && OnePerZone(old(endpoints)[id].subnets - remove + add, catalog) &&
            endpoints == old(endpoints)[id :=
              old(endpoints)[id].(subnets := old(endpoints)[id].subnets - remove + add)])
        || (r.Err? && endpoints == old(endpoints))
    {
      mutations := mutations + 1;
      var before := Faulty();
      if before {
        return Err(Fault);
      }
      if id !in endpoints {
        return Err(NotFound);
      }
      if !OnePerZone(endpoints[id].subnets - remove + add, catalog) {
        return Err(Invalid);
      }
      endpoints := endpoints[id := endpoints[id].(subnets := endpoints[id].subnets - remove + add)];
      var after := Faulty();
      r := if after then Err(Fault) else Ok(());
    }

    /** ModifyVpcEndpoint adding or removing security groups. */
    method ModifyGroups(id: Id, add: set<Id>, remove: set<Id>) returns (r: Result<()>)
      modifies this`endpoints, this`mutations, this`budget
      ensures mutations == old(mutations) + 1
      ensures r.Ok? ==> budget == old(budget)
      ensures r.Err? && budget == old(budget) ==> endpoints == old(endpoints) && id !in endpoints
      ensures budget <= old(budget)
      ensures
        || (id in old(endpoints)
              && endpoints ==
                    old(endpoints)[id := old(endpoints)[id].(groups := old(endpoints)[id].groups - remove + add)])
        || (r.Err? && endpoints == old(endpoints))
    {
      mutations := mutations + 1;
      var before := Faulty();
      if before {
        return Err(Fault);
      }
      if id !in endpoints {
        return Err(NotFound);
      }
      endpoints := endpoints[id := endpoints[id].(groups := endpoints[id].groups - remove + add)];
      var after := Faulty();
      r := if after then Err(Fault) else Ok(());
    }

    /** ModifyVpcEndpoint turning private DNS on. */
    method EnablePrivateDns(id: Id) returns (r: Result<()>)
      modifies this`endpoints, this`mutations, this`budget
      ensures mutations == old(mutations) + 1
      ensures r.Ok? ==> budget == old(budget)
      ensures r.Err? && budget == old(budget) ==> endpoints == old(endpoints) && id !in endpoints
      ensures budget <= old(budget)
      ensures
        || (id in old(endpoints) && endpoints == old(endpoints)[id := old(endpoints)[id].(privateDns := true)])
        || (r.Err? && endpoints == old(endpoints))
    {
      mutations := mutations + 1;
      var before := Faulty();
      if before {
        return Err(Fault);
      }
      if id !in endpoints {
        return Err(NotFound);
      }
      endpoints := endpoints[id := endpoints[id].(privateDns := true)];
      var after := Faulty();
      r := if after then Err(Fault) else Ok(());
    }

    // ---- Route 53 ----

    /** GetHostedZone. */
    method GetZone(ref: ZoneRef) returns (r: Result<ZoneInfo>)
      modifies this`budget, this`answers
      ensures answers == if r.Ok? then old(answers) + {(now, ref, r.value)} else old(answers)
      ensures r.Ok? ==> budget == old(budget) && LiveZone(ref, zones) && r.value == Info(ref.n, zones[ref.n])
      ensures r.Err? ==> budget < old(budget) || (budget == old(budget) && !LiveZone(ref, zones))
      ensures r.Err? ==> r.error != Dependency
    {
      var f := Faulty();
      if f {
        return Err(Fault);
      }
      if !LiveZone(ref, zones) {
        return Err(NotFound);
      }
      r := Ok(Info(ref.n, zones[ref.n]));
      answers := answers + {(now, ref, r.value)};
    }

    /** ListHostedZonesByVPC (the first page, taken to be the whole listing). */
    method ListZonesByVpc(vpc: Id) returns (r: Result<seq<Id>>)
      modifies this`budget
      ensures r.Ok? ==> budget == old(budget) && forall i :: i in r.value <==> i in zones && vpc in zones[i].vpcs
      ensures r.Err? ==> budget < old(budget)
    {
      var f := Faulty();
      if f {
        return Err(Fault);
      }
      var q := Enumerate(set i | i in zones && vpc in zones[i].vpcs);
      r := Ok(q);
    }

    /** ListHostedZonesByName (the first page, taken to hold every zone of that name). */
    method ListZonesByName() returns (r: Result<seq<Id>>)
      modifies this`budget
      ensures r.Ok? ==> budget == old(budget) && forall i :: i in r.value <==> i in zones
      ensures r.Err? ==> budget < old(budget)
    {
      var f := Faulty();
      if f {
        return Err(Fault);
      }
      var q := Enumerate(zones.Keys);
      r := Ok(q);
    }

    /** CreateHostedZone: a private zone associated with one VPC. */
    method CreateZone(domain: string, vpc: Id) returns (r: Result<Id>)
      modifies this`zones, this`nextZone, this`mutations, this`creations, this`budget
      ensures mutations == old(mutations) + 1 && creations == old(creations) + 1
      ensures r.Ok? ==> budget == old(budget) && r.value == old(nextZone)
      ensures r.Err? ==> budget < old(budget)
      ensures
        || (zones == old(zones)[old(nextZone) := NewZone(domain, vpc)] && nextZone == old(nextZone) + 1)
        || (r.Err? && zones == old(zones) && nextZone == old(nextZone))
    {
      mutations, creations := mutations + 1, creations + 1;
      var before := Faulty();
      if before {
        return Err(Fault);
      }
      var id := nextZone;
      zones := zones[id := NewZone(domain, vpc)];
      nextZone := nextZone + 1;
      var after := Faulty();
      if after {
        return Err(Fault);
      }
      r := Ok(id);
    }

    /** ListTagsForResource on a zone. */
    method ZoneTags(ref: ZoneRef) returns (r: Result<Tags>)
      modifies this`budget
      ensures r.Ok? ==> budget == old(budget) && LiveZone(ref, zones) && r.value == zones[ref.n].tags
      ensures r.Err? ==> budget < old(budget) || (budget == old(budget) && !LiveZone(ref, zones))
    {
      var f := Faulty();
      if f {
        return Err(Fault);
      }
      r := if LiveZone(ref, zones) then Ok(zones[ref.n].tags) else Err(NotFound);
    }

    /** ChangeTagsForResource on a zone. */
    method TagZone(ref: ZoneRef, cluster: string) returns (r: Result<()>)
      modifies this`zones, this`mutations, this`budget
      ensures mutations == old(mutations) + 1
      ensures budget <= old(budget)
      ensures r.Ok? ==> budget == old(budget)
      ensures r.Err? && budget == old(budget) ==> zones == old(zones) && !LiveZone(ref, zones)
      ensures
        || (LiveZone(ref, old(zones)) && zones == old(zones)[ref.n := WithZoneTags(old(zones)[ref.n], cluster)])
        || (r.Err? && zones == old(zones))
    {
      mutations := mutations + 1;
      var before := Faulty();
      if before {
        return Err(Fault);
      }
      if !LiveZone(ref, zones) {
        return Err(NotFound);
      }
      zones := zones[ref.n := WithZoneTags(zones[ref.n], cluster)];
      var after := Faulty();
      r := if after then Err(Fault) else Ok(());
    }

    /** ChangeResourceRecordSets with one UPSERT of a CNAME record. */
    method Upsert(id: Id, name: string, value: RecordValue) returns (r: Result<()>)
      modifies this`zones, this`mutations, this`budget
      ensures mutations == old(mutations) + 1
      ensures budget <= old(budget)
      ensures r.Ok? ==> budget == old(budget)
      ensures r.Err? && budget == old(budget) ==> zones == old(zones) && id !in zones
      ensures
        || (id in old(zones) && zones == old(zones)[id := WithRecord(old(zones)[id], name, value)])
        || (r.Err? && zones == old(zones))
    {
      mutations := mutations + 1;
      var before := Faulty();
      if before {
        return Err(Fault);
      }
      if id !in zones {
        return Err(NotFound);
      }
      zones := zones[id := WithRecord(zones[id], name, value)];
      var after := Faulty();
      r := if after then Err(Fault) else Ok(());
    }

    /** ListResourceRecordSets (the first page, taken to be the whole listing). */
    method ListRecords(ref: ZoneRef) returns (r: Result<seq<RecordKey>>)
      modifies this`budget
      ensures r.Ok? ==>
        budget == old(budget) && LiveZone(ref, zones) && forall k :: k in r.value <==> k in zones[ref.n].records
      ensures r.Err? ==> budget < old(budget) || (budget == old(budget) && !LiveZone(ref, zones))
      ensures r.Ok? ==> NoDuplicates(r.value)
      ensures r.Err? ==> r.error != Dependency
    {
      var f := Faulty();
      if f {
        return Err(Fault);
      }
      if !LiveZone(ref, zones) {
        return Err(NotFound);
      }
      var q := Enumerate(zones[ref.n].records.Keys);
      r := Ok(q);
    }

    /** ChangeResourceRecordSets with one DELETE. */
    method DeleteRecord(ref: ZoneRef, key: RecordKey) returns (r: Result<()>)
      modifies this`zones, this`mutations, this`budget
      ensures mutations == old(mutations) + 1
      ensures budget <= old(budget)
      ensures r.Ok? ==> budget == old(budget)
      ensures r.Err? && budget == old(budget) ==>
        zones == old(zones) && (LiveZone(ref, zones) ==> key !in zones[ref.n].records)
      ensures
        || (LiveZone(ref, old(zones)) && zones == old(zones)[ref.n := WithoutRecord(old(zones)[ref.n], key)])
        || (r.Err? && zones == old(zones))
      ensures r.Err? ==> r.error != Dependency
    {
      mutations := mutations + 1;
      var before := Faulty();
      if before {
        return Err(Fault);
      }
      if !LiveZone(ref, zones) || key !in zones[ref.n].records {
        return Err(NotFound);
      }
      zones := zones[ref.n := WithoutRecord(zones[ref.n], key)];
      var after := Faulty();
      r := if after then Err(Fault) else Ok(());
    }

    /** DeleteHostedZone. */
    method DeleteZone(ref: ZoneRef) returns (r: Result<()>)
      modifies this`zones, this`mutations, this`budget
      ensures mutations == old(mutations) + 1
      ensures budget <= old(budget)
      ensures zones == old(zones)
        || (LiveZone(ref, old(zones)) && OnlyDefaultRecords(old(zones)[ref.n]) && zones == old(zones) - {ref.n})
      ensures r.Ok? ==> budget == old(budget) && LiveZone(ref, old(zones)) && zones == old(zones) - {ref.n}
      ensures r.Err? && budget == old(budget) ==> r.error != Fault && zones == old(zones)
      ensures r == Err(NotFound) ==> budget == old(budget) && zones == old(zones) && !LiveZone(ref, zones)
      ensures r == Err(NotEmpty) ==>
        budget == old(budget) && zones == old(zones) && LiveZone(ref, zones) && !OnlyDefaultRecords(zones[ref.n])
      ensures r.Err? ==> r.error in {Fault, NotFound, NotEmpty}
    {
      mutations := mutations + 1;
      var before := Faulty();
      if before {
        return Err(Fault);
      }
      if !LiveZone(ref, zones) {
        return Err(NotFound);
      }
      if !OnlyDefaultRecords(zones[ref.n]) {
        return Err(NotEmpty);
      }
      zones := zones - {ref.n};
      var after := Faulty();
      r := if after then Err(Fault) else Ok(());
    }

    /** CreateVPCAssociationAuthorization. */
    method AuthorizeAssociation(ref: ZoneRef, vpc: Id) returns (r: Result<()>)
      modifies this`authorized, this`mutations, this`budget
      ensures mutations == old(mutations) + 1
      ensures r.Ok? ==> budget == old(budget) && LiveZone(ref, zones) && (ref.n, vpc) in authorized
      ensures r.Err? ==> budget < old(budget) || (budget == old(budget) && !LiveZone(ref, zones))
    {
      mutations := mutations + 1;
      var f := Faulty();
      if f {
        return Err(Fault);
      }
      if !LiveZone(ref, zones) {
        return Err(NotFound);
      }
      authorized := authorized + {(ref.n, vpc)};
      r := Ok(());
    }

    /** AssociateVPCWithHostedZone: rejected without an authorization, or when the VPC is already associated.
        `applied` tells whether AWS carried it out, which the caller cannot see when an error comes back. */
    method Associate(ref: ZoneRef, vpc: Id) returns (r: Result<()>, ghost applied: bool)
      modifies this`zones, this`mutations, this`lost, this`budget
      ensures mutations == old(mutations) + 1
      ensures budget <= old(budget)
      ensures lost == old(lost) + if applied && r.Err? then 1 else 0
      ensures applied && r.Err? ==> budget < old(budget)
      ensures r.Ok? ==> budget == old(budget) && applied
      ensures r.Err? && budget == old(budget) ==>
        !applied && (LiveZone(ref, zones) ==> vpc in zones[ref.n].vpcs || (ref.n, vpc) !in authorized)
      ensures applied ==>
        LiveZone(ref, old(zones)) && (ref.n, vpc) in authorized && vpc !in old(zones)[ref.n].vpcs
          && zones == old(zones)[ref.n := WithVpc(old(zones)[ref.n], vpc)]
      ensures !applied ==> zones == old(zones)
    {
      mutations := mutations + 1;
      applied := false;
      var before := Faulty();
      if before {
        return Err(Fault), applied;
      }
      if !LiveZone(ref, zones) || (ref.n, vpc) !in authorized || vpc in zones[ref.n].vpcs {
        return Err(Invalid), applied;
      }
      zones := zones[ref.n := WithVpc(zones[ref.n], vpc)];
      applied := true;
      var after := Faulty();
      lost := if after then lost + 1 else lost;
      r := if after then Err(Fault) else Ok(());
    }

    // ---- time ----

    /** Waits five seconds, or longer at the environment's expense, while AWS finishes the deletions
        that are due: such an endpoint disappears or stays listed as deleted. */
    method Sleep()
      modifies this`now, this`endpoints, this`budget
      ensures now >= old(now) + 5
      ensures budget == old(budget) ==> now == old(now) + 5
      ensures budget <= old(budget)
      ensures DeletionsFinished(old(endpoints), endpoints, now)
    {
      now := now + 5;
      var slow := Faulty();
      if slow {
        var extra: int := *;
        now := now + if extra < 0 then 0 else extra;
      }
      var due := set i | i in endpoints && endpoints[i].state.Deleting? && endpoints[i].state.until <= now;
      var listed: bool := *;
      if listed {
        endpoints := map i | i in endpoints :: if i in due then endpoints[i].(state := Deleted) else endpoints[i];
      } else {
        endpoints := endpoints - due;
      }
    }
  }

  /** Every deletion due by `now` is finished and nothing else has changed. */
  ghost predicate DeletionsFinished(m: map<Id, Endpoint>, m2: map<Id, Endpoint>, now: nat) {
    && m2.Keys <= m.Keys
    && forall i | i in m ::
         if m[i].state.Deleting? && m[i].state.until <= now then i in m2 ==> m2[i] == m[i].(state := Deleted)
         else i in m2 && m2[i] == m[i]
  }

  /** What GetHostedZone returns of a zone. */
  datatype ZoneInfo = ZoneInfo(id: Id, name: string, vpcs: set<Id>)

  function Info(id: Id, z: Zone): ZoneInfo {
    ZoneInfo(id, z.name, z.vpcs)
  }

  predicate LiveZone(ref: ZoneRef, zones: map<Id, Zone>) {
    ref != NoZone && ref.n in zones
  }

  function TrimDots(s: string): string {
    if s != "" && s[|s| - 1] == '.' then TrimDots(s[..|s| - 1]) else s
  }

  /** The name AWS stores for a zone or record: it always ends in a dot. */
  function Fqdn(s: string): string {
    if s != "" && s[|s| - 1] == '.' then s else s + "."
  }

  function NewZone(domain: string, vpc: Id): Zone {
    Zone(Fqdn(domain), true, {vpc}, Tags("", {}, false, false),
         map[RecordKey(Fqdn(domain), NS) := Text("ns"), RecordKey(Fqdn(domain), SOA) := Text("soa")])
  }

  predicate HasZoneTags(t: Tags, cluster: string) {
    t.operator && t.managed && cluster in t.clusters
  }

  function WithZoneTags(z: Zone, cluster: string): Zone {
    z.(tags := Tags(z.tags.name, z.tags.clusters + {cluster}, true, true))
  }

  function WithRecord(z: Zone, name: string, value: RecordValue): Zone {
    z.(records := z.records[RecordKey(Fqdn(name), CNAME) := value])
  }

  function WithoutRecord(z: Zone, key: RecordKey): Zone {
    z.(records := z.records - {key})
  }

  function WithVpc(z: Zone, vpc: Id): Zone {
    z.(vpcs := z.vpcs + {vpc})
  }

  /** Some order of the elements of a set, as an AWS listing or a Go map iteration yields it. */
  method Enumerate<T(==)>(s: set<T>) returns (q: seq<T>)
    ensures forall x :: x in q <==> x in s
    ensures NoDuplicates(q)
  {
    q := [];
    var rest := s;
    while rest != {}
      invariant rest <= s
      invariant forall x :: x in q <==> x in s - rest
      invariant NoDuplicates(q)
      decreases rest
    {
      var x :| x in rest;
      assert x !in q;
      q := q + [x];
      rest := rest - {x};
    }
  }

  /** Endpoint id of `m` is being deleted in `m2`, to be gone no later than `until` unless an earlier
      deletion was already under way. */
  ghost predicate DeletionStarted(m: map<Id, Endpoint>, m2: map<Id, Endpoint>, id: Id, until: nat)
    requires id in m
  {
    m2 == m[id := m[id].(state := if m[id].state.Deleting? then m[id].state else Deleting(until))]
  }
}
