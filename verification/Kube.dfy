/** The VpcEndpoint custom resource and the part of the Kubernetes API the operator uses. */
module Kube {
  import opened Aws
  import opened Rules

  datatype Condition = Unset | CondTrue | CondFalse

  /** .status: every id is NO_ID, NoZone or "" until known. */
  datatype Status = Status(infra: string, service: string, vpc: Id, group: Id, endpoint: Id, zone: ZoneRef,
                           record: string,
                           groupCond: Condition, endpointCond: Condition, recordCond: Condition, tagsCond: Condition,
                           serviceCond: Condition)

  /** The status fields that only parseClusterInfo writes are the same. */
  predicate SameInputs(st: Status, st': Status) {
    st'.infra == st.infra && st'.service == st.service && st'.vpc == st.vpc
  }

  /** A tag filter; an empty value asks for the key only, an empty key for nothing. */
  datatype TagFilter = TagFilter(key: string, value: string)

  datatype VpcSpec = VpcSpec(autoDiscover: bool, subnetIds: seq<Id>, ids: seq<Id>, tags: seq<TagFilter>,
                             subnetTags: seq<TagFilter>)

  /** .domainNameRef: a name, or a reference to the DNS CR or to the HostedControlPlane (with its field path). */
  datatype DomainRef = DomainRef(name: string, dnsRef: bool, hcpRef: Option<string>)

  datatype AssociatedVpc = AssociatedVpc(vpc: Id, secret: string)

  datatype DnsSpec = DnsSpec(autoDiscover: bool, zone: Id, domainName: string, domainRef: Option<DomainRef>,
                             associated: seq<AssociatedVpc>, hostname: string, externalName: string)

  datatype Spec = Spec(serviceName: string, serviceRefName: string, serviceLookup: bool, region: string,
                       overrideSecret: Option<string>, ingress: seq<RuleSpec>, egress: seq<RuleSpec>, useVpcCidr: bool,
                       enablePrivateDns: bool, vpc: VpcSpec, dns: DnsSpec)

  /** The object without its status. */
  datatype VpcEndpoint = VpcEndpoint(name: string, spec: Spec, finalizer: bool, deleting: bool)

  /** What the other objects of the cluster say; None when they cannot be read. */
  datatype Lookups = Lookups(infra: Option<string>, hcpInfra: Option<string>, endpointService: Option<string>,
                             region: Option<string>, credentials: bool, secrets: set<string>,
                             baseDomain: Option<string>, dnsRefDomain: Option<string>, hcpDomain: Option<string>)

  const HCP_NAMESPACE_PATH := ".metadata.namespace"

  predicate IsHcp(dns: DnsSpec) {
    dns.domainRef.Some? && dns.domainRef.value.hcpRef.Some?
  }

  predicate NamesDomain(dns: DnsSpec) {
    dns.domainName != "" || dns.domainRef.Some?
  }

  /** meta.SetStatusCondition to False, but only when it is True. */
  function Invalidate(c: Condition): Condition {
    if c == CondTrue then CondFalse else c
  }

  /** A condition that nothing sets to True any more. */
  predicate Lowered(c: Condition, c': Condition) {
    c' == c || c' == Invalidate(c)
  }

  function Entry(c: Condition): seq<bool> {
    if c == Unset then [] else [c == CondTrue]
  }

  /** .status.conditions: one entry per condition that was ever set. */
  function Conditions(st: Status): seq<bool> {
    Entry(st.groupCond) + Entry(st.endpointCond) + Entry(st.recordCond) + Entry(st.tagsCond) + Entry(st.serviceCond)
  }

  /** isVpcEndpointReady: at least one condition, and all of them True. */
  method IsVpcEndpointReady(conditions: seq<bool>) returns (ready: bool)
    ensures ready <==> conditions != [] && forall c | c in conditions :: c
  {
    if |conditions| == 0 {
      return false;
    }
    for i := 0 to |conditions|
      invariant forall j | 0 <= j < i :: conditions[j]
    {
      if !conditions[i] {
        assert conditions[i] in conditions;
        return false;
      }
    }
    ready := true;
  }

  /** Failed calls cost the environment its budget; those that are status writes are counted. */
  predicate Spent(budget: nat, failed: nat, budget': nat, failed': nat) {
    budget' <= budget && failed <= failed' && budget' + failed' <= budget + failed
  }

  class ApiServer {
    // the VpcEndpoint as persisted; exists turns false when its last finalizer goes
    var stored: VpcEndpoint
    var status: Status
    var present: bool
    // the ExternalName of the Service in the CR's namespace, when there is one
    var service: Option<string>
    var lookups: Lookups
    var serviceWrites: nat
    // how many writes of the status have failed
    var failedWrites: nat
    // how many more calls the environment may make fail
    var budget: nat

    constructor (vpce: VpcEndpoint, status: Status, lookups: Lookups, budget: nat)
      ensures stored == vpce && present && service == None && this.lookups == lookups && this.status == status
      ensures serviceWrites == 0 && failedWrites == 0 && this.budget == budget
    {
      stored, present, service := vpce, true, None;
      this.status, this.lookups := status, lookups;
      serviceWrites, failedWrites := 0, 0;
      this.budget := budget;
    }

    method Faulty() returns (f: bool)
      modifies this`budget
      ensures f ==> old(budget) > 0 && budget == old(budget) - 1
      ensures !f ==> budget == old(budget)
    {
      f := *;
      f := f && budget > 0;
      if f {
        budget := budget - 1;
      }
    }

    method Get() returns (r: Result<(VpcEndpoint, Status)>)
      modifies this`budget
      ensures r.Ok? ==> budget == old(budget) && present && r.value == (stored, status)
      ensures r.Err? ==> budget < old(budget) || (budget == old(budget) && !present)
      ensures r == Err(NotFound) ==> !present
      ensures r.Err? && budget == old(budget) ==> r.error == NotFound
    {
      var f := Faulty();
      r := if f then Err(Fault) else if present then Ok((stored, status)) else Err(NotFound);
    }

    /** Status().Update: writes the whole status; a failure may come before or after the write. */
    method UpdateStatus(status: Status) returns (r: Result<()>)
      modifies this`status, this`failedWrites, this`budget
      ensures Spent(old(budget), old(failedWrites), budget, failedWrites)
      ensures r.Ok? ==> budget == old(budget) && this.status == status
      ensures this.status == old(this.status) || this.status == status
      ensures r.Err? ==> (budget < old(budget) && failedWrites > old(failedWrites)) || !present
      ensures r.Err? ==> r.error != Dependency
    {
      var before := Faulty();
      if before {
        failedWrites := failedWrites + 1;
        return Err(Fault);
      }
      if !present {
        return Err(NotFound);
      }
      this.status := status;
      var after := Faulty();
      if after {
        failedWrites := failedWrites + 1;
        return Err(Fault);
      }
      r := Ok(());
    }

    /** Update of the object itself, which leaves the status alone and answers with the persisted object.
        Removing the finalizer of an object that is being deleted lets it go. */
    method UpdateFinalizer(finalizer: bool) returns (r: Result<()>)
      modifies this`stored, this`present, this`budget
      ensures budget <= old(budget)
      ensures r.Ok? ==> budget == old(budget) && stored == old(stored).(finalizer := finalizer)
      ensures stored == old(stored) || stored == old(stored).(finalizer := finalizer)
      ensures r.Err? ==> budget < old(budget) || !old(present)
      ensures r.Ok? || stored != old(stored) ==> present == (!stored.deleting || stored.finalizer)
      ensures present ==> old(present)
      ensures present != old(present) ==>
        stored.deleting && !stored.finalizer && stored == old(stored).(finalizer := finalizer)
    {
      var before := Faulty();
      if before {
        return Err(Fault);
      }
      if !present {
        return Err(NotFound);
      }
      stored := stored.(finalizer := finalizer);
      present := !stored.deleting || stored.finalizer;
      var after := Faulty();
      r := if after then Err(Fault) else Ok(());
    }

    /** Any read of another object. */
    method Read<T>(source: Option<T>) returns (r: Result<T>)
      modifies this`budget
      ensures r.Ok? ==> budget == old(budget) && source == Some(r.value)
      ensures r.Err? ==> budget < old(budget) || (budget == old(budget) && source.None?)
      ensures r.Err? ==> r.error != Dependency
    {
      var f := Faulty();
      r := if f then Err(Fault) else if source.Some? then Ok(source.value) else Err(Unhealthy);
    }

    method GetService() returns (r: Result<string>)
      modifies this`budget
      ensures r.Ok? ==> budget == old(budget) && service == Some(r.value)
      ensures r.Err? ==> budget < old(budget) || (budget == old(budget) && r == Err(NotFound))
      ensures r == Err(NotFound) ==> budget == old(budget) && service.None?
    {
      var f := Faulty();
      r := if f then Err(Fault) else if service.Some? then Ok(service.value) else Err(NotFound);
    }

    method CreateService(externalName: string) returns (r: Result<()>)
      modifies this`service, this`serviceWrites, this`budget
      ensures serviceWrites == old(serviceWrites) + 1
      ensures budget <= old(budget)
      ensures r.Ok? ==> budget == old(budget) && service == Some(externalName)
      ensures service == old(service) || (old(service).None? && service == Some(externalName))
      ensures r.Err? ==> budget < old(budget) || old(service).Some?
    {
      serviceWrites := serviceWrites + 1;
      var before := Faulty();
      if before {
        return Err(Fault);
      }
      if service.Some? {
        return Err(Invalid);
      }
      service := Some(externalName);
      var after := Faulty();
      r := if after then Err(Fault) else Ok(());
    }

    method UpdateService(externalName: string) returns (r: Result<()>)
      modifies this`service, this`serviceWrites, this`budget
      ensures serviceWrites == old(serviceWrites) + 1
      ensures budget <= old(budget)
      ensures r.Ok? ==> budget == old(budget) && service == Some(externalName)
      ensures service == old(service) || (old(service).Some? && service == Some(externalName))
      ensures r.Err? ==> budget < old(budget) || old(service).None?
    {
      serviceWrites := serviceWrites + 1;
      var before := Faulty();
      if before {
        return Err(Fault);
      }
      if service.None? {
        return Err(NotFound);
      }
      service := Some(externalName);
      var after := Faulty();
      r := if after then Err(Fault) else Ok(());
    }
  }
}
