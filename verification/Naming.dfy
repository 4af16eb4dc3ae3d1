/** Names and tags of the AWS resources the operator creates. Strings are sequences of single-byte
    characters, as infra ids and Kubernetes names are. */
module Naming {
  import opened Aws

  const MAX_NAME: nat := 255
  const GROUP_SUFFIX := "sg"
  const ENDPOINT_SUFFIX := "vpce"
  const LEGACY_CLUSTER_TAG_PREFIX := "kubernetes.io/cluster"

  function GetClusterLegacyTagKey(infra: string): Result<string> {
    if infra == "" then Err(Unhealthy) else Ok(LEGACY_CLUSTER_TAG_PREFIX + "/" + infra)
  }

  function GenerateName(prefix: string, suffix: string, maxLength: int): Result<string>
    requires |suffix| < maxLength
  {
    if prefix == "" || suffix == "" then Err(Unhealthy)
    else
      var kept := if |prefix| > maxLength - |suffix| then prefix[..maxLength - |suffix| - 1] else prefix;
      Ok(kept + "-" + suffix)
  }

  function GenerateSecurityGroupName(cluster: string, purpose: string): Result<string> {
    if cluster == "" then Err(Unhealthy) else GenerateName(cluster + "-" + purpose, GROUP_SUFFIX, MAX_NAME)
  }

  function GenerateVPCEndpointName(cluster: string, purpose: string): Result<string> {
    if cluster == "" then Err(Unhealthy) else GenerateName(cluster + "-" + purpose, ENDPOINT_SUFFIX, MAX_NAME)
  }

  /** The name for a prefix, when the prefix is not empty. */
  function NameOf(prefix: string, suffix: string): string
    requires prefix != "" && suffix != "" && |suffix| < MAX_NAME
  {
    GenerateName(prefix, suffix, MAX_NAME).value
  }

  /** When there is a name: the cluster must be known, the purpose may be empty. */
  lemma NamedIff(cluster: string, purpose: string, prefix: string, suffix: string)
    requires |suffix| < MAX_NAME
    ensures GenerateName(prefix, suffix, MAX_NAME).Ok? <==> prefix != "" && suffix != ""
    ensures GenerateSecurityGroupName(cluster, purpose).Ok? <==> cluster != ""
    ensures GenerateVPCEndpointName(cluster, purpose).Ok? <==> cluster != ""
  {
    assert |cluster + "-" + purpose| > 0;
  }

  /** A name has at most 255 characters unless the prefix has exactly 255 - |suffix|, when it has 256. */
  lemma NameLength(prefix: string, suffix: string)
    requires prefix != "" && suffix != "" && |suffix| < MAX_NAME
    ensures |NameOf(prefix, suffix)| > MAX_NAME <==> |prefix| == MAX_NAME - |suffix|
    ensures |NameOf(prefix, suffix)| <= MAX_NAME + 1
  {
    assert |"-"| == 1;
  }

  /** Equal names mean equal prefixes as long as neither prefix is cut. */
  lemma UncutNamesIdentify(p: string, q: string, suffix: string)
    requires p != "" && q != "" && suffix != "" && |suffix| < MAX_NAME
    requires |p| <= MAX_NAME - |suffix| && |q| <= MAX_NAME - |suffix|
    requires NameOf(p, suffix) == NameOf(q, suffix)
    ensures p == q
  {
    var tail := "-" + suffix;
    assert NameOf(p, suffix) == p + tail && NameOf(q, suffix) == q + tail;
    assert |p| == |q|;
    assert p == (p + tail)[..|p|] == (q + tail)[..|q|] == q;
  }

  /** Exactly which prefixes give a name that no other prefix gives: the ones that stay clear of the cut,
      and the one length at which the name is a character too long. */
  lemma NameIsUniqueIff(p: string, suffix: string)
    requires p != "" && suffix != "" && |suffix| < MAX_NAME - 2
    ensures (forall q: string | q != "" && NameOf(q, suffix) == NameOf(p, suffix) :: q == p) <==>
            |p| < MAX_NAME - |suffix| - 1 || |p| == MAX_NAME - |suffix|
  {
    var max := MAX_NAME - |suffix|;
    var tail := "-" + suffix;
    if |p| < max - 1 || |p| == max {
      forall q: string | q != "" && NameOf(q, suffix) == NameOf(p, suffix)
        ensures q == p
      {
        assert NameOf(p, suffix) == p + tail;
        if |q| <= max {
          UncutNamesIdentify(p, q, suffix);
        }
      }
    } else {
      var kept := p[..max - 1];
      var q := kept + (if |p| == max + 1 then "xxx" else "xx");
      assert q[..max - 1] == kept;
      assert |q| != |p| && |q| > max;
      assert NameOf(q, suffix) == kept + tail;
      assert NameOf(p, suffix) == kept + tail;
      assert q != "" && NameOf(q, suffix) == NameOf(p, suffix) && q != p;
    }
  }

  /** A security group and a VPC endpoint never share a name. */
  lemma GroupAndEndpointNamesDiffer(p: string, q: string)
    requires p != "" && q != ""
    ensures NameOf(p, GROUP_SUFFIX) != NameOf(q, ENDPOINT_SUFFIX)
  {
    var g, e := NameOf(p, GROUP_SUFFIX), NameOf(q, ENDPOINT_SUFFIX);
    assert g[|g| - 1] == 'g';
    assert e[|e| - 1] == 'e';
  }

  lemma ClusterKeyIdentifies(infra1: string, infra2: string)
    requires infra1 != "" && infra2 != ""
    requires GetClusterLegacyTagKey(infra1) == GetClusterLegacyTagKey(infra2)
    ensures infra1 == infra2
  {
    var head := LEGACY_CLUSTER_TAG_PREFIX + "/";
    assert infra1 == (head + infra1)[|head|..];
    assert infra2 == (head + infra2)[|head|..];
  }

  /** The Name tag and the cluster tag key together name one CR of one cluster, whatever dashes the
      infra id and the CR name contain. */
  lemma TagsIdentifyOwner(infra1: string, name1: string, infra2: string, name2: string, suffix: string)
    requires infra1 != "" && infra2 != "" && suffix in {GROUP_SUFFIX, ENDPOINT_SUFFIX}
    requires |infra1| + 1 + |name1| <= MAX_NAME - |suffix| && |infra2| + 1 + |name2| <= MAX_NAME - |suffix|
    requires GetClusterLegacyTagKey(infra1) == GetClusterLegacyTagKey(infra2)
    requires NameOf(infra1 + "-" + name1, suffix) == NameOf(infra2 + "-" + name2, suffix)
    ensures infra1 == infra2 && name1 == name2
  {
    ClusterKeyIdentifies(infra1, infra2);
    UncutNamesIdentify(infra1 + "-" + name1, infra2 + "-" + name2, suffix);
    var head := infra1 + "-";
    assert name1 == (head + name1)[|head|..];
    assert name2 == (head + name2)[|head|..];
  }

  /** What the two Generate functions give when nothing is cut. */
  lemma UncutNames(infra: string, name: string)
    requires infra != "" && |infra| + 1 + |name| <= 251
    ensures GenerateSecurityGroupName(infra, name) == Ok(infra + "-" + name + "-sg")
    ensures GenerateVPCEndpointName(infra, name) == Ok(infra + "-" + name + "-vpce")
  {
    var prefix := infra + "-" + name;
    assert prefix + "-" + "sg" == prefix + "-sg" && prefix + "-" + "vpce" == prefix + "-vpce";
  }

  /** Of the names that are given themselves: together with the cluster key, the name of a group or endpoint tells the
      infra id and the CR. */
  lemma GivenNamesIdentifyOwner(infra1: string, name1: string, infra2: string, name2: string)
    requires infra1 != "" && infra2 != "" && GetClusterLegacyTagKey(infra1) == GetClusterLegacyTagKey(infra2)
    requires |infra1| + 1 + |name1| <= 251 && |infra2| + 1 + |name2| <= 251
    requires GenerateSecurityGroupName(infra1, name1) == GenerateSecurityGroupName(infra2, name2)
             || GenerateVPCEndpointName(infra1, name1) == GenerateVPCEndpointName(infra2, name2)
    ensures infra1 == infra2 && name1 == name2
  {
    UncutNames(infra1, name1);
    UncutNames(infra2, name2);
    if GenerateSecurityGroupName(infra1, name1) == GenerateSecurityGroupName(infra2, name2) {
      TagsIdentifyOwner(infra1, name1, infra2, name2, GROUP_SUFFIX);
    } else {
      TagsIdentifyOwner(infra1, name1, infra2, name2, ENDPOINT_SUFFIX);
    }
  }

  /** Exactly which CR names give a group name that no other CR of the cluster has: those that stay clear of the cut,
      and the one length at which the name is a character too long. */
  lemma GroupNameIsOwnIff(infra: string, name: string)
    requires infra != "" && |infra| <= 240
    ensures (forall other | GenerateSecurityGroupName(infra, other) == GenerateSecurityGroupName(infra, name) ::
               other == name) <==>
            |infra| + 1 + |name| < 252 || |infra| + 1 + |name| == 253
  {
    var head := infra + "-";
    var p := head + name;
    NameIsUniqueIff(p, GROUP_SUFFIX);
    if |p| < 252 || |p| == 253 {
      forall other | GenerateSecurityGroupName(infra, other) == GenerateSecurityGroupName(infra, name)
        ensures other == name
      {
        assert NameOf(head + other, GROUP_SUFFIX) == NameOf(p, GROUP_SUFFIX);
        assert other == (head + other)[|head|..] && name == p[|head|..];
      }
    } else {
      var kept := p[..252];
      var more := if |p| == 254 then "xxx" else "xx";
      var other := kept[|head|..] + more;
      assert kept[..|head|] == head && head + other == kept + more;
      assert (head + other)[..252] == kept && |head + other| > 253;
      assert NameOf(head + other, GROUP_SUFFIX) == kept + "-" + GROUP_SUFFIX == NameOf(p, GROUP_SUFFIX);
      assert infra + "-" + other == head + other && infra + "-" + name == p;
      assert head + other != p;
      assert GenerateSecurityGroupName(infra, other) == GenerateSecurityGroupName(infra, name) && other != name;
    }
  }

  // ---- tag lists ----

  datatype Tag = Tag(key: string, value: string)

  const OPERATOR_TAG := Tag("kubernetes.io/aws-vpce-operator", "managed")
  const RED_HAT_TAG := Tag("red-hat-managed", "true")

  function GenerateAwsTags(name: string, clusterKey: string): Result<seq<Tag>> {
    if name == "" || clusterKey == "" then Err(Unhealthy)
    else Ok([OPERATOR_TAG, RED_HAT_TAG, Tag(clusterKey, "owned"), Tag("Name", name)])
  }

  /** The map a list of tags stands for; a later tag with the same key wins. */
  function TagMap(tags: seq<Tag>): map<string, string> {
    if tags == [] then map[] else TagMap(tags[..|tags| - 1])[tags[|tags| - 1].key := tags[|tags| - 1].value]
  }

  method GenerateAwsTagsAsMap(name: string, clusterKey: string) returns (r: Result<map<string, string>>)
    ensures r.Err? <==> name == "" || clusterKey == ""
    ensures r.Ok? ==> r.value == TagMap(GenerateAwsTags(name, clusterKey).value)
  {
    var tags := GenerateAwsTags(name, clusterKey);
    if tags.Err? {
      return Err(tags.error);
    }
    var m: map<string, string> := map[];
    for i := 0 to |tags.value|
      invariant m == TagMap(tags.value[..i])
    {
      assert tags.value[..i + 1][..i] == tags.value[..i];
      m := m[tags.value[i].key := tags.value[i].value];
    }
    assert tags.value[..|tags.value|] == tags.value;
    r := Ok(m);
  }

  predicate HaveAll(tags: seq<Tag>, wanted: map<string, string>) {
    forall k | k in wanted :: Tag(k, wanted[k]) in tags
  }

  /** tagsContains: every wanted tag is in the list. */
  method TagsContains(tags: seq<Tag>, wanted: map<string, string>) returns (r: bool)
    ensures r == HaveAll(tags, wanted)
  {
    var keys := Enumerate(wanted.Keys);
    for i := 0 to |keys|
      invariant forall j | 0 <= j < i :: Tag(keys[j], wanted[keys[j]]) in tags
    {
      assert keys[i] in keys;
      var found := false;
      for t := 0 to |tags|
        invariant !found
        invariant Tag(keys[i], wanted[keys[i]]) !in tags[..t]
      {
        if tags[t].key == keys[i] && tags[t].value == wanted[keys[i]] {
          found := true;
          break;
        }
      }
      if !found {
        return false;
      }
    }
    forall k | k in wanted
      ensures Tag(k, wanted[k]) in tags
    {
      assert k in keys;
    }
    r := true;
  }

  /** The tags in the list are those of the record that the rest of the model keeps. */
  ghost predicate Shows(tags: seq<Tag>, t: Tags) {
    && (Tag("kubernetes.io/aws-vpce-operator", "managed") in tags <==> t.operator)
    && (Tag("red-hat-managed", "true") in tags <==> t.managed)
    && (forall k :: k in t.clusters <==> Tag(k, "owned") in tags)
    && (forall n | n != "" :: Tag("Name", n) in tags <==> n == t.name)
  }

  /** What `TagsContains` answers for the map of the default tags is whether the record has them. */
  lemma ContainsDefaultTagsIff(tags: seq<Tag>, t: Tags, name: string, infra: string)
    requires Shows(tags, t) && name != "" && infra != ""
    ensures var key := GetClusterLegacyTagKey(infra).value;
            var wanted := TagMap(GenerateAwsTags(name, key).value);
            HaveAll(tags, wanted) <==> HasDefaultTags(t, name, key)
  {
    var key := GetClusterLegacyTagKey(infra).value;
    assert key[14] == 'c' && OPERATOR_TAG.key[14] == 'a' && |RED_HAT_TAG.key| == 15 && |"Name"| == 4 && |key| > 21;
    var a, b, c, d := OPERATOR_TAG, RED_HAT_TAG, Tag(key, "owned"), Tag("Name", name);
    assert [a, b, c, d][..3] == [a, b, c] && [a, b, c][..2] == [a, b] && [a, b][..1] == [a];
    assert TagMap([a]) == map[a.key := a.value];
    assert TagMap([a, b]) == map[a.key := a.value, b.key := b.value];
    assert TagMap([a, b, c]) == map[a.key := a.value, b.key := b.value, c.key := c.value];
    var wanted := TagMap([a, b, c, d]);
    assert wanted == map[a.key := a.value, b.key := b.value, c.key := c.value, d.key := d.value];
    assert GenerateAwsTags(name, key) == Ok([a, b, c, d]);
    assert a.key != b.key && a.key != c.key && a.key != d.key && b.key != c.key && b.key != d.key && c.key != d.key;
    assert wanted[a.key] == a.value && wanted[b.key] == b.value && wanted[c.key] == c.value && wanted[d.key] == d.value;
    assert HaveAll(tags, wanted) <==> a in tags && b in tags && c in tags && d in tags;
  }
}
