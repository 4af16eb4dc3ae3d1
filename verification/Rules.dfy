/** Which security group rules a VpcEndpoint asks for, and which of them are still missing. */
module Rules {
  import opened Aws

  /** One rule of .spec.securityGroup; cidr is "" when not given. */
  datatype RuleSpec = RuleSpec(cidr: string, fromPort: int, toPort: int, protocol: string)

  /** What a rule without its own CIDR refers to. vpcCidr is "" unless useVpcCidr was looked up. */
  datatype Sources = Sources(useVpcCidr: bool, vpcCidr: string, nodeGroups: seq<Id>)

  function RuleFor(s: RuleSpec, egress: bool, peer: Peer): Rule {
    Rule(egress, s.protocol, s.fromPort, s.toPort, peer)
  }

  function PerGroup(s: RuleSpec, egress: bool, groups: seq<Id>): (rules: seq<Rule>)
    ensures |rules| == |groups|
  {
    seq(|groups|, i requires 0 <= i < |groups| => RuleFor(s, egress, SourceGroup(groups[i])))
  }

  /** The rules one entry of the spec stands for: its own CIDR, else the VPC's, else one per node group. */
  function Expand(s: RuleSpec, egress: bool, src: Sources): seq<Rule> {
    if s.cidr != "" then [RuleFor(s, egress, Cidr(s.cidr))]
    else if src.useVpcCidr && src.vpcCidr != "" then [RuleFor(s, egress, Cidr(src.vpcCidr))]
    else PerGroup(s, egress, src.nodeGroups)
  }

  function Desired(specs: seq<RuleSpec>, egress: bool, src: Sources): seq<Rule> {
    if specs == [] then [] else Desired(specs[..|specs| - 1], egress, src) + Expand(specs[|specs| - 1], egress, src)
  }

  /** The desired rules that are not among the existing ones, in order. */
  function Missing(desired: seq<Rule>, existing: seq<Rule>): seq<Rule> {
    if desired == [] then []
    else
      var last := desired[|desired| - 1];
      Missing(desired[..|desired| - 1], existing) + if last in existing then [] else [last]
  }

  lemma {:induction false} MissingMembers(desired: seq<Rule>, existing: seq<Rule>)
    ensures forall p :: p in Missing(desired, existing) <==> p in desired && p !in existing
  {
    if desired != [] {
      MissingMembers(desired[..|desired| - 1], existing);
      assert desired == desired[..|desired| - 1] + [desired[|desired| - 1]];
    }
  }

  lemma {:induction false} NothingMissing(desired: seq<Rule>, existing: seq<Rule>)
    requires forall p | p in desired :: p in existing
    ensures Missing(desired, existing) == []
  {
    if desired != [] {
      NothingMissing(desired[..|desired| - 1], existing);
    }
  }

  /** What an entry of the spec means for a list of rules: there is one for its own CIDR; without that, one for the
      VPC's when that is to be used and known; else one for every node group. */
  ghost predicate Granted(s: RuleSpec, egress: bool, vpcCidr: string, nodeGroups: seq<Id>, rules: seq<Rule>) {
    if s.cidr != "" then Rule(egress, s.protocol, s.fromPort, s.toPort, Cidr(s.cidr)) in rules
    else if vpcCidr != "" then Rule(egress, s.protocol, s.fromPort, s.toPort, Cidr(vpcCidr)) in rules
    else forall g | g in nodeGroups :: Rule(egress, s.protocol, s.fromPort, s.toPort, SourceGroup(g)) in rules
  }

  /** The rule is one that the entry means. */
  ghost predicate MeantBy(p: Rule, s: RuleSpec, egress: bool, vpcCidr: string, nodeGroups: seq<Id>) {
    && p.egress == egress && p.protocol == s.protocol && p.fromPort == s.fromPort && p.toPort == s.toPort
    && if s.cidr != "" then p.peer == Cidr(s.cidr)
       else if vpcCidr != "" then p.peer == Cidr(vpcCidr)
       else p.peer.SourceGroup? && p.peer.group in nodeGroups
  }

  ghost function VpcCidr(src: Sources): string {
    if src.useVpcCidr then src.vpcCidr else ""
  }

  lemma ExpandMeans(s: RuleSpec, egress: bool, src: Sources, rules: seq<Rule>)
    ensures (forall p | p in Expand(s, egress, src) :: p in rules) <==>
            Granted(s, egress, VpcCidr(src), src.nodeGroups, rules)
    ensures forall p :: p in Expand(s, egress, src) <==> MeantBy(p, s, egress, VpcCidr(src), src.nodeGroups)
  {
    var all := PerGroup(s, egress, src.nodeGroups);
    forall g | g in src.nodeGroups
      ensures Rule(egress, s.protocol, s.fromPort, s.toPort, SourceGroup(g)) in all
    {
      var i :| 0 <= i < |src.nodeGroups| && src.nodeGroups[i] == g;
      assert all[i] == Rule(egress, s.protocol, s.fromPort, s.toPort, SourceGroup(g));
    }
  }

  /** A rule is desired exactly when an entry means it. */
  lemma {:induction false} DesiredIff(p: Rule, specs: seq<RuleSpec>, egress: bool, src: Sources)
    ensures p in Desired(specs, egress, src) <==>
            exists s :: s in specs && MeantBy(p, s, egress, VpcCidr(src), src.nodeGroups)
  {
    hide Expand, MeantBy;
    if specs != [] {
      var n := |specs| - 1;
      DesiredIff(p, specs[..n], egress, src);
      ExpandMeans(specs[n], egress, src, []);
      assert forall s :: s in specs <==> s in specs[..n] || s == specs[n];
    }
  }

  /** A list has all desired rules exactly when every entry is granted. */
  lemma {:induction false} AllGrantedIff(specs: seq<RuleSpec>, egress: bool, src: Sources, rules: seq<Rule>)
    ensures (forall p | p in Desired(specs, egress, src) :: p in rules) <==>
            forall s | s in specs ::
              Granted(s, egress, VpcCidr(src), src.nodeGroups, rules)
  {
    hide Expand, Granted, MeantBy;
    if specs != [] {
      var n := |specs| - 1;
      AllGrantedIff(specs[..n], egress, src, rules);
      ExpandMeans(specs[n], egress, src, rules);
      assert forall s :: s in specs <==> s in specs[..n] || s == specs[n];
      assert forall p :: p in Desired(specs, egress, src) <==>
        p in Desired(specs[..n], egress, src) || p in Expand(specs[n], egress, src);
    }
  }

  /** The filter on protocol and ports that every branch applies before it looks at the peer. */
  predicate Candidate(egress: bool, s: RuleSpec, rule: Rule) {
    rule.egress == egress && rule.protocol == s.protocol && rule.fromPort == s.fromPort && rule.toPort == s.toPort
  }

  /** The inner search: is there a rule for this entry of the spec with this peer? */
  method Present(egress: bool, s: RuleSpec, peer: Peer, existing: seq<Rule>) returns (found: bool)
    ensures found <==> RuleFor(s, egress, peer) in existing
  {
    found := false;
    for i := 0 to |existing|
      invariant !found
      invariant RuleFor(s, egress, peer) !in existing[..i]
    {
      if Candidate(egress, s, existing[i]) {
        if existing[i].peer == peer {
          assert existing[i] == RuleFor(s, egress, peer);
          found := true;
          break;
        }
      }
    }
  }

  lemma {:induction false} MissingPush(desired: seq<Rule>, p: Rule, existing: seq<Rule>)
    ensures Missing(desired + [p], existing) == Missing(desired, existing) + if p in existing then [] else [p]
  {
    assert (desired + [p])[..|desired|] == desired;
  }

  lemma {:induction false} MissingAppend(a: seq<Rule>, b: seq<Rule>, existing: seq<Rule>)
    ensures Missing(a + b, existing) == Missing(a, existing) + Missing(b, existing)
  {
    if b == [] {
      assert a + b == a;
    } else {
      var n := |b| - 1;
      MissingAppend(a, b[..n], existing);
      MissingPush(a + b[..n], b[n], existing);
      assert a + b == a + b[..n] + [b[n]];
    }
  }

  /** The case analysis for one entry of the spec. */
  method GenerateForEntry(s: RuleSpec, egress: bool, src: Sources, existing: seq<Rule>) returns (perms: seq<Rule>)
    ensures perms == Missing(Expand(s, egress, src), existing)
  {
    perms := [];
    if s.cidr != "" {
      var found := Present(egress, s, Cidr(s.cidr), existing);
      if !found {
        perms := [RuleFor(s, egress, Cidr(s.cidr))];
      }
    } else if src.useVpcCidr && src.vpcCidr != "" {
      var found := Present(egress, s, Cidr(src.vpcCidr), existing);
      if !found {
        perms := [RuleFor(s, egress, Cidr(src.vpcCidr))];
      }
    } else if |src.nodeGroups| > 0 {
      ghost var all := PerGroup(s, egress, src.nodeGroups);
      for j := 0 to |src.nodeGroups|
        invariant perms == Missing(all[..j], existing)
      {
        var found := Present(egress, s, SourceGroup(src.nodeGroups[j]), existing);
        if !found {
          perms := perms + [RuleFor(s, egress, SourceGroup(src.nodeGroups[j]))];
        }
        MissingPush(all[..j], all[j], existing);
        assert all[..j + 1] == all[..j] + [all[j]];
      }
      assert all[..|src.nodeGroups|] == all;
    }
  }

  /** generateMissingSecurityGroupRules for one direction. */
  method GenerateMissing(specs: seq<RuleSpec>, egress: bool, src: Sources, existing: seq<Rule>)
    returns (perms: seq<Rule>)
    ensures perms == Missing(Desired(specs, egress, src), existing)
  {
    perms := [];
    for i := 0 to |specs|
      invariant perms == Missing(Desired(specs[..i], egress, src), existing)
    {
      var more := GenerateForEntry(specs[i], egress, src, existing);
      MissingAppend(Desired(specs[..i], egress, src), Expand(specs[i], egress, src), existing);
      assert specs[..i + 1][..i] == specs[..i];
      perms := perms + more;
    }
    assert specs[..|specs|] == specs;
  }

  predicate RepeatedAmongMissing(desired: seq<Rule>, existing: seq<Rule>, i: nat, j: nat) {
    i < j < |desired| && desired[i] == desired[j] && desired[i] !in existing
  }

  lemma {:induction false} RepeatIsSentTwice(desired: seq<Rule>, existing: seq<Rule>, i: nat, j: nat)
    requires RepeatedAmongMissing(desired, existing, i, j)
    ensures !NoDuplicates(Missing(desired, existing))
  {
    var n := |desired| - 1;
    var m := Missing(desired[..n], existing);
    MissingMembers(desired[..n], existing);
    if j == n {
      assert desired[..n][i] == desired[n];
      assert desired[n] in m;
      var k :| 0 <= k < |m| && m[k] == desired[n];
      assert Missing(desired, existing)[k] == Missing(desired, existing)[|m|];
    } else {
      assert desired[..n][i] == desired[i] && desired[..n][j] == desired[j];
      RepeatIsSentTwice(desired[..n], existing, i, j);
      var k, l :| 0 <= k < l < |m| && m[k] == m[l];
      assert Missing(desired, existing)[k] == Missing(desired, existing)[l];
    }
  }

  lemma {:induction false} SentTwiceIsRepeat(desired: seq<Rule>, existing: seq<Rule>)
    requires !NoDuplicates(Missing(desired, existing))
    ensures exists i, j :: RepeatedAmongMissing(desired, existing, i, j)
  {
    var n := |desired| - 1;
    var m := Missing(desired[..n], existing);
    if NoDuplicates(m) {
      MissingMembers(desired[..n], existing);
      assert desired[n] in m;
      var i :| 0 <= i < n && desired[..n][i] == desired[n];
      assert RepeatedAmongMissing(desired, existing, i, n);
    } else {
      SentTwiceIsRepeat(desired[..n], existing);
      var i, j :| RepeatedAmongMissing(desired[..n], existing, i, j);
      assert RepeatedAmongMissing(desired, existing, i, j);
    }
  }

  /** AWS takes the generated request exactly when the spec does not ask twice for a rule that is missing. */
  lemma RequestIsAcceptable(desired: seq<Rule>, existing: seq<Rule>)
    ensures NoDuplicates(Missing(desired, existing)) <==> !exists i, j :: RepeatedAmongMissing(desired, existing, i, j)
  {
    if i, j :| RepeatedAmongMissing(desired, existing, i, j) {
      RepeatIsSentTwice(desired, existing, i, j);
    }
    if !NoDuplicates(Missing(desired, existing)) {
      SentTwiceIsRepeat(desired, existing);
    }
  }

  /** Authorizing what is missing yields the union of the existing and the desired rules, nothing that
      was sent was there before, and generating again finds nothing more to send. */
  lemma AuthorizeConverges(desired: seq<Rule>, existing: seq<Rule>)
    ensures forall p :: p in existing + Missing(desired, existing) <==> p in existing || p in desired
    ensures forall p | p in Missing(desired, existing) :: p !in existing
    ensures Missing(desired, existing + Missing(desired, existing)) == []
  {
    MissingMembers(desired, existing);
    NothingMissing(desired, existing + Missing(desired, existing));
  }

  lemma {:induction false} DesiredDirection(specs: seq<RuleSpec>, egress: bool, src: Sources)
    ensures forall p | p in Desired(specs, egress, src) :: p.egress == egress
  {
    if specs != [] {
      DesiredDirection(specs[..|specs| - 1], egress, src);
    }
  }

  /** A pass whose ingress call succeeded and whose egress call failed is simply completed by the next
      pass: what was authorized is not asked for again and what is left is what was left. */
  lemma {:induction false} PartialPassResumes(specs: seq<RuleSpec>, src: Sources, desired: seq<Rule>,
                                              existing: seq<Rule>)
    requires forall p | p in desired :: p.egress
    ensures var ingress := Missing(Desired(specs, false, src), existing);
            Missing(desired, existing + ingress) == Missing(desired, existing)
    ensures var ingress := Missing(Desired(specs, false, src), existing);
            Missing(Desired(specs, false, src), existing + ingress) == []
  {
    DesiredDirection(specs, false, src);
    AuthorizeConverges(Desired(specs, false, src), existing);
    var ingress := Missing(Desired(specs, false, src), existing);
    MissingMembers(Desired(specs, false, src), existing);
    if desired != [] {
      PartialPassResumes(specs, src, desired[..|desired| - 1], existing);
      assert desired[|desired| - 1] !in ingress;
    }
  }
}
