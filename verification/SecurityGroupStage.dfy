/** validateSecurityGroup: find or create the CR's security group, tag it and authorize its rules. */
module SecurityGroupStage {
  import opened Aws
  import opened Kube
  import opened Rules
  import opened Reconciler
  import Naming

  /** At most one group carries the CR's tags; it lies in the VPC recorded for the CR; a recorded id is
      either that group or gone. */
  ghost predicate GroupsInv(group: Id, vpc: Id, groups: map<Id, Group>, next: Id, name: string, cluster: string) {
    && group < next
    && (forall i | i in groups :: i < next)
    && (forall i, j | i in groups && j in groups && Owned(groups[i].tags, name, cluster)
          && Owned(groups[j].tags, name, cluster) :: i == j)
    && (forall i | i in groups && Owned(groups[i].tags, name, cluster) :: vpc != NO_ID && groups[i].vpc == vpc)
    && (group in groups ==> Owned(groups[group].tags, name, cluster))
  }

  function SourcesOf(spec: Spec, st: Status, catalog: Catalog): Sources {
    Sources(spec.useVpcCidr, if spec.useVpcCidr && st.vpc in catalog.cidrs then catalog.cidrs[st.vpc]
      else "", catalog.nodeGroups)
  }

  function MissingIngress(spec: Spec, src: Sources, g: Group): seq<Rule> {
    Missing(Desired(spec.ingress, false, src), g.rules)
  }

  function MissingEgress(spec: Spec, src: Sources, g: Group): seq<Rule> {
    Missing(Desired(spec.egress, true, src), g.rules)
  }

  predicate RulesMet(spec: Spec, src: Sources, g: Group) {
    MissingIngress(spec, src, g) == [] && MissingEgress(spec, src, g) == []
  }

  predicate RulesAcceptable(spec: Spec, src: Sources, g: Group) {
    NoDuplicates(MissingIngress(spec, src, g)) && NoDuplicates(MissingEgress(spec, src, g))
  }

  /** The group is recorded, tagged, and has every desired rule. */
  predicate GroupDone(spec: Spec, st: Status, groups: map<Id, Group>, catalog: Catalog, name: string, cluster: string) {
    && st.group in groups
    && HasDefaultTags(groups[st.group].tags, name, cluster)
    && RulesMet(spec, SourcesOf(spec, st, catalog), groups[st.group])
  }

  /** What AWS needs in order to accept the rules: a CIDR for the VPC when one is to be used, and no
      missing rule asked for twice. */
  predicate GroupHealthy(spec: Spec, st: Status, groups: map<Id, Group>, catalog: Catalog) {
    && (spec.useVpcCidr ==> st.vpc in catalog.cidrs)
    && (st.group in groups ==> RulesAcceptable(spec, SourcesOf(spec, st, catalog), groups[st.group]))
  }

  /** The recorded group lacks a rule that the spec asks for twice. */
  predicate Refused(spec: Spec, st: Status, groups: map<Id, Group>, catalog: Catalog) {
    st.group in groups && !RulesAcceptable(spec, SourcesOf(spec, st, catalog), groups[st.group])
  }

  ghost predicate NoneOwned(groups: map<Id, Group>, name: string, cluster: string) {
    forall i | i in groups :: !Owned(groups[i].tags, name, cluster)
  }

  /** Adding a group for a CR that has none keeps the invariant, whether or not its id gets recorded. */
  lemma GroupCreated(group: Id, vpc: Id, groups: map<Id, Group>, next: Id, name: string, cluster: string)
    requires GroupsInv(group, vpc, groups, next, name, cluster) && vpc != NO_ID
    requires NoneOwned(groups, name, cluster)
    ensures var groups' := groups[next := Group(vpc, DefaultTags(name, cluster), [ALLOW_ALL_EGRESS])];
            && GroupsInv(group, vpc, groups', next + 1, name, cluster)
            && GroupsInv(next, vpc, groups', next + 1, name, cluster)
  {
  }

  /** So does recording the group that the tags found. */
  lemma GroupFound(group: Id, vpc: Id, groups: map<Id, Group>, next: Id, name: string, cluster: string, id: Id)
    requires GroupsInv(group, vpc, groups, next, name, cluster)
    requires id in groups && Owned(groups[id].tags, name, cluster)
    ensures GroupsInv(id, vpc, groups, next, name, cluster)
  {
  }

  /** The search by id and, failing that, by tags. */
  method SearchGroup(r: VpcEndpointReconciler) returns (res: Result<Option<Id>>)
    requires r.Parsed()
    modifies r.aws`budget
    ensures res.Ok? ==> r.aws.budget == old(r.aws.budget)
    ensures res.Err? ==> r.aws.budget < old(r.aws.budget)
    ensures res.Ok? && res.value.Some? ==> res.value.value in r.aws.groups
    ensures res.Ok? && res.value.Some? ==>
      if r.status.group in r.aws.groups then res.value.value == r.status.group
      else Owned(r.aws.groups[res.value.value].tags, GroupName(r.status, r.vpce.name).value, r.clusterTag)
    ensures res.Ok? && res.value.None? ==>
      r.status.group !in r.aws.groups && NoneOwned(r.aws.groups, GroupName(r.status, r.vpce.name).value, r.clusterTag)
  {
    var found := r.aws.DescribeGroup(r.status.group);
    if found.Err? {
      return Err(found.error);
    }
    if found.value.Some? {
      return Ok(Some(r.status.group));
    }
    var name := GroupName(r.status, r.vpce.name);
    if name.Err? {
      return Err(Unhealthy);
    }
    res := r.aws.FindGroupByTags(name.value, r.clusterTag);
  }

  method FindOrCreateSecurityGroup(r: VpcEndpointReconciler) returns (res: Result<Id>)
    requires r.Synced() && r.Parsed()
    modifies r`status, r.k8s`status, r.k8s`failedWrites, r.k8s`budget
    modifies r.aws`groups, r.aws`nextGroup, r.aws`mutations, r.aws`creations, r.aws`budget
    ensures r.aws.budget <= old(r.aws.budget)
      && Spent(old(r.k8s.budget), old(r.k8s.failedWrites), r.k8s.budget, r.k8s.failedWrites)
    // only .status.group is written
    ensures r.status == old(r.status).(group := r.status.group)
    ensures r.k8s.status == old(r.status).(group := r.k8s.status.group)
    ensures var n, c := GroupName(r.status, r.vpce.name).value, r.clusterTag;
            GroupsInv(old(r.status.group), old(r.status.vpc), old(r.aws.groups), old(r.aws.nextGroup), n, c) ==>
            GroupsInv(r.k8s.status.group, r.k8s.status.vpc, r.aws.groups, r.aws.nextGroup, n, c)
    // success: an existing group, recorded
    ensures res.Ok? ==> r.Synced() && res.value == r.status.group && res.value in r.aws.groups
    ensures res.Ok? ==> r.aws.creations == old(r.aws.creations)
    ensures old(r.status.group) in old(r.aws.groups) ==>
      r.aws.creations == old(r.aws.creations) && r.status == r.k8s.status == old(r.status)
    // a group is created only when neither the id nor the tags find one
    ensures r.aws.creations == old(r.aws.creations) ==>
      r.aws.groups == old(r.aws.groups) && r.aws.mutations == old(r.aws.mutations)
    ensures r.aws.creations != old(r.aws.creations) ==>
      && old(r.status.group) !in old(r.aws.groups)
      && NoneOwned(old(r.aws.groups), GroupName(r.status, r.vpce.name).value, r.clusterTag)
    // without faults the only error is the one that follows a creation
    ensures res.Err? && r.aws.budget == old(r.aws.budget) && r.k8s.budget == old(r.k8s.budget) ==>
      r.aws.creations != old(r.aws.creations) && r.Synced() && r.status.group in r.aws.groups
        && r.status.group == old(r.aws.nextGroup)
  {
    hide GroupsInv;
    ghost var st, groups, next, n := r.status, r.aws.groups, r.aws.nextGroup, GroupName(r.status, r.vpce.name).value;
    ghost var inv := GroupsInv(st.group, st.vpc, groups, next, n, r.clusterTag);
    var found := SearchGroup(r);
    if found.Err? {
      return Err(found.error);
    }
    if found.value.None? {
      var name := GroupName(r.status, r.vpce.name);
      if name.Err? {
        return Err(Unhealthy);
      }
      if inv {
        GroupCreated(st.group, st.vpc, groups, next, n, r.clusterTag);
      }
      var created := r.aws.CreateGroup(name.value, r.status.vpc, r.clusterTag);
      if created.Err? {
        return Err(created.error);
      }
      r.status := r.status.(group := created.value);
      var saved := r.SaveStatus();
      return Err(if saved.Err? then saved.error else Requeue);
    }
    if inv && found.value.value != st.group {
      GroupFound(st.group, st.vpc, groups, next, n, r.clusterTag, found.value.value);
    }
    r.status := r.status.(group := found.value.value);
    var saved := r.SaveStatus();
    res := if saved.Err? then Err(saved.error) else Ok(found.value.value);
  }

  /** createMissingSecurityGroupTags. */
  method CreateMissingSecurityGroupTags(r: VpcEndpointReconciler, id: Id) returns (res: Result<()>)
    requires r.Parsed() && id in r.aws.groups
    modifies r.aws`groups, r.aws`mutations, r.aws`budget
    ensures r.aws.budget <= old(r.aws.budget)
    ensures res.Ok? ==> r.aws.budget == old(r.aws.budget)
    ensures res.Err? ==> r.aws.budget < old(r.aws.budget)
    ensures var name, g := GroupName(r.status, r.vpce.name).value, old(r.aws.groups)[id];
            if HasDefaultTags(g.tags, name, r.clusterTag) then
              res.Ok? && r.aws.groups == old(r.aws.groups) && r.aws.mutations == old(r.aws.mutations)
            else
              var tagged := old(r.aws.groups)[id := g.(tags := AddDefaultTags(g.tags, name, r.clusterTag))];
              r.aws.groups == tagged || (res.Err? && r.aws.groups == old(r.aws.groups))
  {
    var name := GroupName(r.status, r.vpce.name);
    if name.Err? {
      return Err(Unhealthy);
    }
    if !HasDefaultTags(r.aws.groups[id].tags, name.value, r.clusterTag) {
      res := r.aws.TagGroup(id, name.value, r.clusterTag);
    } else {
      res := Ok(());
    }
  }

  /** generateMissingSecurityGroupRules. */
  method GenerateMissingSecurityGroupRules(r: VpcEndpointReconciler, id: Id)
    returns (res: Result<(seq<Rule>, seq<Rule>)>)
    requires r.Parsed() && id in r.aws.groups
    modifies r.aws`budget
    ensures r.aws.budget <= old(r.aws.budget)
    ensures res.Err? ==>
      r.aws.budget < old(r.aws.budget) || (r.vpce.spec.useVpcCidr && r.status.vpc !in r.aws.catalog.cidrs)
    ensures res.Ok? ==> r.aws.budget == old(r.aws.budget)
    ensures res.Ok? ==>
      var src := SourcesOf(r.vpce.spec, r.status, r.aws.catalog);
      res.value == (MissingIngress(r.vpce.spec, src, r.aws.groups[id]),
        MissingEgress(r.vpce.spec, src, r.aws.groups[id]))
  {
    hide Missing, Desired, Naming.GetClusterLegacyTagKey;
    var existing := r.aws.DescribeRules(id);
    if existing.Err? {
      return Err(existing.error);
    }
    var sources := r.aws.NodeGroups();
    if sources.Err? {
      return Err(sources.error);
    }
    var cidr := "";
    if r.vpce.spec.useVpcCidr {
      var looked := r.aws.VpcCidr(r.status.vpc);
      if looked.Err? {
        return Err(looked.error);
      }
      cidr := looked.value;
    }
    var src := Sources(r.vpce.spec.useVpcCidr, cidr, sources.value);
    var ingress := GenerateMissing(r.vpce.spec.ingress, false, src, existing.value);
    var egress := GenerateMissing(r.vpce.spec.egress, true, src, existing.value);
    res := Ok((ingress, egress));
  }

  /** The group after the ingress permissions, and then the egress permissions, took effect. */
  function WithRules(groups: map<Id, Group>, id: Id, perms: seq<Rule>): map<Id, Group>
    requires id in groups
  {
    groups[id := groups[id].(rules := groups[id].rules + perms)]
  }

  predicate AcceptedBy(g: Group, perms: seq<Rule>) {
    NoDuplicates(perms) && forall p | p in perms :: p !in g.rules
  }

  /** AuthorizeSecurityGroupRules: ingress first, then egress; each call may fail on its own. */
  method AuthorizeSecurityGroupRules(aws: AwsClient, id: Id, ingress: seq<Rule>, egress: seq<Rule>)
    returns (res: Result<()>)
    requires id in aws.groups
    modifies aws`groups, aws`mutations, aws`budget
    ensures aws.budget <= old(aws.budget)
    ensures
      || aws.groups == old(aws.groups)
      || aws.groups == WithRules(old(aws.groups), id, ingress)
      || aws.groups == WithRules(old(aws.groups), id, ingress + egress)
    ensures res.Ok? ==> aws.budget == old(aws.budget) && aws.groups == WithRules(old(aws.groups), id, ingress + egress)
    ensures ingress == [] && egress == [] ==> res.Ok? && aws.mutations == old(aws.mutations)
    ensures res.Err? && aws.budget == old(aws.budget) ==>
      if AcceptedBy(old(aws.groups)[id], ingress) then
        aws.groups == WithRules(old(aws.groups), id, ingress) && !AcceptedBy(aws.groups[id], egress)
      else aws.groups == old(aws.groups)
    // a request that asks for a rule twice has no effect
    ensures !NoDuplicates(ingress) ==> res.Err? && aws.groups == old(aws.groups)
    ensures !NoDuplicates(egress) ==>
      res.Err? && (aws.groups == old(aws.groups) || aws.groups == WithRules(old(aws.groups), id, ingress))
  {
    ghost var groups, rules := aws.groups, aws.groups[id].rules;
    assert WithRules(groups, id, []) == groups by { assert rules + [] == rules; }
    assert ingress + [] == ingress && [] + egress == egress;
    if |ingress| > 0 {
      res := aws.Authorize(id, ingress);
      if res.Err? {
        return;
      }
    }
    assert aws.groups == WithRules(groups, id, ingress);
    if |egress| > 0 {
      assert WithRules(aws.groups, id, egress) == WithRules(groups, id, ingress + egress) by {
        assert rules + ingress + egress == rules + (ingress + egress);
      }
      res := aws.Authorize(id, egress);
    } else {
      res := Ok(());
    }
  }

  /** Better tags and more rules on the CR's group keep the invariant. */
  lemma GroupUpdated(id: Id, vpc: Id, groups: map<Id, Group>, next: Id, name: string, cluster: string, g: Group)
    requires GroupsInv(id, vpc, groups, next, name, cluster) && id in groups
    requires g.vpc == groups[id].vpc && (Owned(groups[id].tags, name, cluster) ==> Owned(g.tags, name, cluster))
    ensures GroupsInv(id, vpc, groups[id := g], next, name, cluster)
  {
  }

  function AllRules(spec: Spec, src: Sources, g: Group): Group {
    g.(rules := g.rules + (MissingIngress(spec, src, g) + MissingEgress(spec, src, g)))
  }

  lemma AllRulesArePresent(spec: Spec, src: Sources, g: Group)
    ensures RulesMet(spec, src, AllRules(spec, src, g))
    ensures RulesMet(spec, src, g) ==> AllRules(spec, src, g) == g
    ensures forall p | p in MissingEgress(spec, src, g) :: p !in g.rules + MissingIngress(spec, src, g)
    ensures forall p | p in MissingIngress(spec, src, g) :: p !in g.rules
  {
    var ingress, egress := Desired(spec.ingress, false, src), Desired(spec.egress, true, src);
    MissingMembers(ingress, g.rules);
    MissingMembers(egress, g.rules);
    DesiredDirection(spec.ingress, false, src);
    DesiredDirection(spec.egress, true, src);
    NothingMissing(ingress, AllRules(spec, src, g).rules);
    NothingMissing(egress, AllRules(spec, src, g).rules);
  }

  /** A partial pass leaves the missing egress rules as they were. */
  lemma IngressLeavesEgress(spec: Spec, src: Sources, g: Group)
    ensures var g' := g.(rules := g.rules + MissingIngress(spec, src, g));
            MissingIngress(spec, src, g') == [] && MissingEgress(spec, src, g') == MissingEgress(spec, src, g)
  {
    DesiredDirection(spec.egress, true, src);
    PartialPassResumes(spec.ingress, src, Desired(spec.egress, true, src), g.rules);
  }

  /** What the stage makes of the group it found: default tags added when one is missing, and all rules. */
  function Configured(spec: Spec, src: Sources, g: Group, name: string, cluster: string): Group {
    AllRules(spec, src, if HasDefaultTags(g.tags, name, cluster) then g
      else g.(tags := AddDefaultTags(g.tags, name, cluster)))
  }

  function OnlyIngress(spec: Spec, src: Sources, g: Group): Group {
    g.(rules := g.rules + MissingIngress(spec, src, g))
  }

  lemma ConfiguredIsDone(spec: Spec, src: Sources, g: Group, name: string, cluster: string)
    ensures RulesMet(spec, src, Configured(spec, src, g, name, cluster))
    ensures HasDefaultTags(Configured(spec, src, g, name, cluster).tags, name, cluster)
    ensures RulesMet(spec, src, g) && HasDefaultTags(g.tags, name, cluster) ==>
      Configured(spec, src, g, name, cluster) == g
  {
    var tagged := if HasDefaultTags(g.tags, name, cluster) then g
      else g.(tags := AddDefaultTags(g.tags, name, cluster));
    AllRulesArePresent(spec, src, tagged);
  }

  /** Generating and authorizing the missing rules of one group. */
  method AuthorizeMissingRules(r: VpcEndpointReconciler, id: Id) returns (res: Result<()>)
    requires r.Parsed() && id in r.aws.groups
    modifies r.aws`groups, r.aws`mutations, r.aws`budget
    ensures r.aws.budget <= old(r.aws.budget)
    ensures var spec, src, g := r.vpce.spec, SourcesOf(r.vpce.spec, r.status, r.aws.catalog), old(r.aws.groups)[id];
      && (|| r.aws.groups == old(r.aws.groups)
          || r.aws.groups == old(r.aws.groups)[id := OnlyIngress(spec, src, g)]
          || r.aws.groups == old(r.aws.groups)[id := AllRules(spec, src, g)])
      && (res.Ok? ==>
            r.aws.budget == old(r.aws.budget) && r.aws.groups == old(r.aws.groups)[id := AllRules(spec, src, g)])
      && (RulesMet(spec, src, g) ==> r.aws.groups == old(r.aws.groups) && r.aws.mutations == old(r.aws.mutations))
      && (res.Err? && r.aws.budget == old(r.aws.budget) ==>
            || !RulesAcceptable(spec, src, r.aws.groups[id])
            || (spec.useVpcCidr && r.status.vpc !in r.aws.catalog.cidrs))
      // what AWS rejects once it goes on rejecting
      && (!RulesAcceptable(spec, src, g) ==> res.Err? && !RulesAcceptable(spec, src, r.aws.groups[id]))
  {
    ghost var src, groups := SourcesOf(r.vpce.spec, r.status, r.aws.catalog), r.aws.groups;
    var missing := GenerateMissingSecurityGroupRules(r, id);
    if missing.Err? {
      return Err(missing.error);
    }
    AllRulesArePresent(r.vpce.spec, src, groups[id]);
    IngressLeavesEgress(r.vpce.spec, src, groups[id]);
    res := AuthorizeSecurityGroupRules(r.aws, id, missing.value.0, missing.value.1);
  }

  /** Every entry of the spec has its rules, by its own CIDR, else the VPC's, else those of the node groups. */
  ghost predicate EntriesGranted(spec: Spec, vpc: Id, catalog: Catalog, rules: seq<Rule>) {
    var cidr := if spec.useVpcCidr && vpc in catalog.cidrs then catalog.cidrs[vpc] else "";
    && (forall s | s in spec.ingress :: Granted(s, false, cidr, catalog.nodeGroups, rules))
    && (forall s | s in spec.egress :: Granted(s, true, cidr, catalog.nodeGroups, rules))
  }

  /** The rules that were there still are, and every other one is meant by an entry of the spec. */
  ghost predicate OnlyMeantAdded(spec: Spec, vpc: Id, catalog: Catalog, was: seq<Rule>, rules: seq<Rule>) {
    var cidr := if spec.useVpcCidr && vpc in catalog.cidrs then catalog.cidrs[vpc] else "";
    && was <= rules
    && forall p | p in rules && p !in was ::
         || (exists s :: s in spec.ingress && MeantBy(p, s, false, cidr, catalog.nodeGroups))
         || (exists s :: s in spec.egress && MeantBy(p, s, true, cidr, catalog.nodeGroups))
  }

  lemma MissingIffLacking(desired: seq<Rule>, existing: seq<Rule>)
    ensures Missing(desired, existing) == [] <==> forall p | p in desired :: p in existing
  {
    if Missing(desired, existing) == [] {
      MissingMembers(desired, existing);
    } else if forall p | p in desired :: p in existing {
      NothingMissing(desired, existing);
    }
  }

  /** The rules of a group that nothing is missing from, in the terms of the spec. */
  lemma RulesMetIff(spec: Spec, st: Status, catalog: Catalog, g: Group)
    ensures RulesMet(spec, SourcesOf(spec, st, catalog), g) <==> EntriesGranted(spec, st.vpc, catalog, g.rules)
  {
    hide Missing, Desired, Granted;
    var src := SourcesOf(spec, st, catalog);
    MissingIffLacking(Desired(spec.ingress, false, src), g.rules);
    MissingIffLacking(Desired(spec.egress, true, src), g.rules);
    AllGrantedIff(spec.ingress, false, src, g.rules);
    AllGrantedIff(spec.egress, true, src, g.rules);
  }

  /** What the stage has made of the rules. */
  lemma ConfiguredMeans(spec: Spec, st: Status, catalog: Catalog, g: Group, name: string, cluster: string)
    ensures var rules := Configured(spec, SourcesOf(spec, st, catalog), g, name, cluster).rules;
            EntriesGranted(spec, st.vpc, catalog, rules) && OnlyMeantAdded(spec, st.vpc, catalog, g.rules, rules)
  {
    hide Missing, Desired, Granted, MeantBy, RulesMet, EntriesGranted;
    var src := SourcesOf(spec, st, catalog);
    var g' := Configured(spec, src, g, name, cluster);
    ConfiguredIsDone(spec, src, g, name, cluster);
    RulesMetIff(spec, st, catalog, g');
    MissingMembers(Desired(spec.ingress, false, src), g.rules);
    MissingMembers(Desired(spec.egress, true, src), g.rules);
    forall p | p in g'.rules && p !in g.rules
      ensures p in Desired(spec.ingress, false, src) || p in Desired(spec.egress, true, src)
    {
      assert p in MissingIngress(spec, src, g) || p in MissingEgress(spec, src, g);
    }
    forall p
      ensures p in Desired(spec.ingress, false, src) ==>
        exists s :: s in spec.ingress && MeantBy(p, s, false, VpcCidr(src), src.nodeGroups)
      ensures p in Desired(spec.egress, true, src) ==>
        exists s :: s in spec.egress && MeantBy(p, s, true, VpcCidr(src), src.nodeGroups)
    {
      DesiredIff(p, spec.ingress, false, src);
      DesiredIff(p, spec.egress, true, src);
    }
  }

  lemma TagsDoNotMatter(spec: Spec, src: Sources, g: Group, g': Group)
    requires g'.rules == g.rules
    ensures RulesAcceptable(spec, src, g) == RulesAcceptable(spec, src, g')
  {
  }

  /** Tags and rules of the group just found. */
  method ConfigureSecurityGroup(r: VpcEndpointReconciler, id: Id) returns (res: Result<()>)
    requires r.Parsed() && id == r.status.group && id in r.aws.groups
    modifies r.aws`groups, r.aws`mutations, r.aws`budget
    ensures r.aws.budget <= old(r.aws.budget)
    ensures var n, c := GroupName(r.status, r.vpce.name).value, r.clusterTag;
            GroupsInv(r.status.group, r.status.vpc, old(r.aws.groups), r.aws.nextGroup, n, c) ==>
              GroupsInv(r.status.group, r.status.vpc, r.aws.groups, r.aws.nextGroup, n, c)
    ensures r.aws.groups.Keys == old(r.aws.groups).Keys
    ensures res.Ok? ==>
      && r.aws.budget == old(r.aws.budget)
      && r.aws.groups == old(r.aws.groups)[id :=
           Configured(r.vpce.spec, SourcesOf(r.vpce.spec, r.status, r.aws.catalog), old(r.aws.groups)[id],
                      GroupName(r.status, r.vpce.name).value, r.clusterTag)]
    ensures GroupDone(r.vpce.spec, r.status, old(r.aws.groups), r.aws.catalog, GroupName(r.status, r.vpce.name).value,
      r.clusterTag) ==>
      r.aws.groups == old(r.aws.groups) && r.aws.mutations == old(r.aws.mutations)
    ensures res.Err? && r.aws.budget == old(r.aws.budget) ==>
      !GroupHealthy(r.vpce.spec, r.status, r.aws.groups, r.aws.catalog)
    ensures Refused(r.vpce.spec, r.status, old(r.aws.groups), r.aws.catalog) ==>
      res.Err? && Refused(r.vpce.spec, r.status, r.aws.groups, r.aws.catalog)
  {
    hide MissingIngress, MissingEgress, RulesMet, RulesAcceptable, GroupsInv;
    ghost var name, src := GroupName(r.status, r.vpce.name).value, SourcesOf(r.vpce.spec, r.status, r.aws.catalog);
    ghost var inv := GroupsInv(r.status.group, r.status.vpc, r.aws.groups, r.aws.nextGroup, name, r.clusterTag);
    ghost var groups := r.aws.groups;
    res := CreateMissingSecurityGroupTags(r, id);
    if inv && r.aws.groups != groups {
      GroupUpdated(id, r.status.vpc, groups, r.aws.nextGroup, name, r.clusterTag, r.aws.groups[id]);
    }
    TagsDoNotMatter(r.vpce.spec, src, groups[id], r.aws.groups[id]);
    if res.Err? {
      return;
    }
    ghost var tagged := r.aws.groups;
    res := AuthorizeMissingRules(r, id);
    if inv && r.aws.groups != tagged {
      GroupUpdated(id, r.status.vpc, tagged, r.aws.nextGroup, name, r.clusterTag, r.aws.groups[id]);
    }
  }

  /** validateSecurityGroup. */
  method ValidateSecurityGroup(r: VpcEndpointReconciler) returns (res: Result<()>)
    requires r.Synced() && r.Parsed()
    modifies r`status, r.k8s`status, r.k8s`failedWrites, r.k8s`budget
    modifies r.aws`groups, r.aws`nextGroup, r.aws`mutations, r.aws`creations, r.aws`budget
    ensures r.aws.budget <= old(r.aws.budget)
      && Spent(old(r.k8s.budget), old(r.k8s.failedWrites), r.k8s.budget, r.k8s.failedWrites)
    ensures r.k8s.status == old(r.status).(group := r.k8s.status.group, groupCond := r.k8s.status.groupCond)
    ensures r.k8s.status.groupCond == old(r.status.groupCond) || r.k8s.status.groupCond == CondTrue
    ensures var n, c := GroupName(old(r.status), r.vpce.name).value, r.clusterTag;
            GroupsInv(old(r.status.group), old(r.status.vpc), old(r.aws.groups), old(r.aws.nextGroup), n, c) ==>
            GroupsInv(r.k8s.status.group, r.k8s.status.vpc, r.aws.groups, r.aws.nextGroup, n, c)
    ensures r.aws.creations != old(r.aws.creations) ==>
      && old(r.status.group) !in old(r.aws.groups)
      && NoneOwned(old(r.aws.groups), GroupName(old(r.status), r.vpce.name).value, r.clusterTag)
    ensures res.Ok? ==>
      && r.Synced() && r.Parsed()
      && r.status == old(r.status).(group := r.status.group, groupCond := CondTrue)
      && (old(r.status.group) in old(r.aws.groups) ==> r.status.group == old(r.status.group))
      && GroupDone(r.vpce.spec, r.status, r.aws.groups, r.aws.catalog, GroupName(r.status, r.vpce.name).value,
            r.clusterTag)
      && r.status.group in old(r.aws.groups)
      && r.aws.groups == old(r.aws.groups)[r.status.group :=
           Configured(r.vpce.spec, SourcesOf(r.vpce.spec, r.status, r.aws.catalog), old(r.aws.groups)[r.status.group],
                      GroupName(r.status, r.vpce.name).value, r.clusterTag)]
    // in the terms of the spec: every entry has its rules, and nothing else was added
    ensures res.Ok? ==>
      && EntriesGranted(r.vpce.spec, r.status.vpc, r.aws.catalog, r.aws.groups[r.status.group].rules)
      && OnlyMeantAdded(r.vpce.spec, r.status.vpc, r.aws.catalog, old(r.aws.groups)[r.status.group].rules,
                        r.aws.groups[r.status.group].rules)
    // a finished group is left alone
    ensures GroupDone(r.vpce.spec, old(r.status), old(r.aws.groups), r.aws.catalog,
      GroupName(old(r.status), r.vpce.name).value, r.clusterTag) ==>
      r.aws.groups == old(r.aws.groups) && r.aws.mutations == old(r.aws.mutations)
        && r.k8s.status.group == old(r.status.group)
    // without faults, a pass that does not finish the stage has brought it forward
    ensures res.Err? && r.aws.budget == old(r.aws.budget) && r.k8s.budget == old(r.k8s.budget) ==>
      || !GroupHealthy(r.vpce.spec, r.k8s.status, r.aws.groups, r.aws.catalog)
      || (old(r.status.group) !in old(r.aws.groups) && r.k8s.status.group in r.aws.groups)
    // with faults or without, a rule asked for twice keeps the stage from ever finishing
    ensures Refused(r.vpce.spec, old(r.status), old(r.aws.groups), r.aws.catalog) ==>
      res.Err? && r.k8s.status.group == old(r.status.group)
        && Refused(r.vpce.spec, r.k8s.status, r.aws.groups, r.aws.catalog)
  {
    hide MissingIngress, MissingEgress, AllRules, Configured, RulesMet, RulesAcceptable, GroupsInv, EntriesGranted,
         OnlyMeantAdded;
    ghost var st := r.status;
    var found := FindOrCreateSecurityGroup(r);
    if found.Err? {
      return Err(found.error);
    }
    assert SourcesOf(r.vpce.spec, r.status, r.aws.catalog) == SourcesOf(r.vpce.spec, st, r.aws.catalog);
    ConfiguredIsDone(r.vpce.spec, SourcesOf(r.vpce.spec, st, r.aws.catalog), r.aws.groups[found.value],
                     GroupName(r.status, r.vpce.name).value, r.clusterTag);
    ConfiguredMeans(r.vpce.spec, r.status, r.aws.catalog, r.aws.groups[found.value],
                    GroupName(r.status, r.vpce.name).value, r.clusterTag);
    res := ConfigureSecurityGroup(r, found.value);
    if res.Err? {
      return;
    }
    r.status := r.status.(groupCond := CondTrue);
    res := r.SaveStatus();
  }
}
