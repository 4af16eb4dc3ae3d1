/** The VpcEndpointTemplate reconciler: one VpcEndpoint for every hosted control plane. */
module Template {
  import opened Aws
  import opened Kube
  import opened SliceDiff

  datatype Key = Key(namespace: string, name: string)

  datatype Obj = Obj(labels: map<string, string>, spec: Spec, terminating: bool)

  datatype Hcp = Hcp(namespace: string, deleting: bool)

  /** One of .spec.selector.matchExpressions. */
  datatype Requirement =
    | In(key: string, values: set<string>)
    | NotIn(key: string, values: set<string>)
    | Exists(key: string)
    | DoesNotExist(key: string)

  /** hcp: the template is for hosted control planes, the only type there is. */
  datatype VpceTemplate = VpceTemplate(name: string, matchLabels: map<string, string>, expressions: seq<Requirement>,
                                       labels: map<string, string>, spec: Spec, hcp: bool, finalizer: bool,
                                         deleting: bool)

  predicate HasLabels(labels: map<string, string>, wanted: map<string, string>) {
    forall k | k in wanted :: k in labels && labels[k] == wanted[k]
  }

  predicate Meets(labels: map<string, string>, q: Requirement) {
    match q
    case In(k, values) => k in labels && labels[k] in values
    case NotIn(k, values) => k in labels ==> labels[k] !in values
    case Exists(k) => k in labels
    case DoesNotExist(k) => k !in labels
  }

  /** What a pass looks at: the match labels, not the expressions. */
  predicate Selected(o: Obj, t: VpceTemplate) {
    HasLabels(o.labels, t.matchLabels)
  }

  /** What the deletion of the template looks at: the whole selector. */
  predicate Covered(o: Obj, t: VpceTemplate) {
    Selected(o, t) && forall q | q in t.expressions :: Meets(o.labels, q)
  }

  function SelectedIn(m: map<Key, Obj>, t: VpceTemplate, namespace: string): set<Key> {
    set k | k in m && k.namespace == namespace && Selected(m[k], t)
  }

  class TemplateApi {
    var vpces: map<Key, Obj>
    var template: VpceTemplate
    var present: bool
    var hcps: seq<Hcp>
    var writes: nat
    // how many more calls the environment may make fail or leave unfinished
    var budget: nat

    method Faulty() returns (f: bool)
      modifies this`budget
      ensures f ==> old(budget) > 0 && budget == old(budget) - 1
      ensures !f ==> budget == old(budget)
    {
      f := *;
      f := f && budget > 0;
      if f {
        budget := budget - 1;
      }
    }

    /** List in one namespace by the match labels, in any order. */
    method ListSelected(t: VpceTemplate, namespace: string) returns (r: Result<seq<Key>>)
      modifies this`budget
      ensures r.Ok? ==>
        budget == old(budget) && NoDuplicates(r.value) && forall k :: k in r.value <==>
          k in SelectedIn(vpces, t, namespace)
      ensures r.Err? ==> budget < old(budget)
    {
      var f := Faulty();
      if f {
        return Err(Fault);
      }
      var keys := Enumerate(SelectedIn(vpces, t, namespace));
      r := Ok(keys);
    }

    /** List in all namespaces by the whole selector. */
    method ListCovered(t: VpceTemplate) returns (r: Result<seq<Key>>)
      modifies this`budget
      ensures r.Ok? ==>
        budget == old(budget) && NoDuplicates(r.value) && forall k :: k in r.value <==>
          k in vpces && Covered(vpces[k], t)
      ensures r.Err? ==> budget < old(budget)
    {
      var f := Faulty();
      if f {
        return Err(Fault);
      }
      var keys := Enumerate(set k | k in vpces && Covered(vpces[k], t));
      r := Ok(keys);
    }

    method ListHcps() returns (r: Result<seq<Hcp>>)
      modifies this`budget
      ensures r.Ok? ==> budget == old(budget) && r.value == hcps
      ensures r.Err? ==> budget < old(budget)
    {
      var f := Faulty();
      r := if f then Err(Fault) else Ok(hcps);
    }

    method Create(k: Key, o: Obj) returns (r: Result<()>)
      modifies this`vpces, this`writes, this`budget
      ensures writes == old(writes) + 1 && budget <= old(budget)
      ensures vpces == old(vpces) || (k !in old(vpces) && vpces == old(vpces)[k := o])
      ensures r.Ok? ==> budget == old(budget) && k !in old(vpces) && vpces == old(vpces)[k := o]
      ensures r.Err? && budget == old(budget) ==> k in vpces && vpces == old(vpces)
    {
      writes := writes + 1;
      var before := Faulty();
      if before {
        return Err(Fault);
      }
      if k in vpces {
        return Err(Invalid);
      }
      vpces := vpces[k := o];
      var after := Faulty();
      r := if after then Err(Fault) else Ok(());
    }

    /** Delete: the object goes, or, at the environment's expense, lingers until its finalizers are removed. */
    method Delete(k: Key) returns (r: Result<()>)
      modifies this`vpces, this`writes, this`budget
      ensures writes == old(writes) + 1 && budget <= old(budget)
      ensures vpces == old(vpces) || vpces == old(vpces) - {k}
        || (k in old(vpces) && vpces == old(vpces)[k := old(vpces)[k].(terminating := true)])
      ensures r.Ok? ==> k in vpces ==> vpces[k].terminating
      ensures r.Ok? && budget == old(budget) ==> vpces == old(vpces) - {k}
      ensures r.Err? && budget == old(budget) ==> k !in vpces && vpces == old(vpces)
    {
      writes := writes + 1;
      var before := Faulty();
      if before {
        return Err(Fault);
      }
      if k !in vpces {
        return Err(NotFound);
      }
      var lingers := Faulty();
      if lingers {
        vpces := vpces[k := vpces[k].(terminating := true)];
      } else {
        vpces := vpces - {k};
      }
      var after := Faulty();
      r := if after then Err(Fault) else Ok(());
    }

    method Replace(k: Key, spec: Spec) returns (r: Result<()>)
      modifies this`vpces, this`writes, this`budget
      ensures writes == old(writes) + 1 && budget <= old(budget)
      ensures vpces == old(vpces) || (k in old(vpces) && vpces == old(vpces)[k := old(vpces)[k].(spec := spec)])
      ensures r.Ok? ==>
        budget == old(budget) && k in old(vpces) && vpces == old(vpces)[k := old(vpces)[k].(spec := spec)]
      ensures r.Err? && budget == old(budget) ==> k !in vpces
    {
      writes := writes + 1;
      var before := Faulty();
      if before {
        return Err(Fault);
      }
      if k !in vpces {
        return Err(NotFound);
      }
      vpces := vpces[k := vpces[k].(spec := spec)];
      var after := Faulty();
      r := if after then Err(Fault) else Ok(());
    }

    method GetTemplate() returns (r: Result<VpceTemplate>)
      modifies this`budget
      ensures r.Ok? ==> budget == old(budget) && present && r.value == template
      ensures budget <= old(budget) && (r.Err? ==> budget < old(budget) || !present)
      ensures r.Err? ==> (r == Err(NotFound) <==> !present && budget == old(budget))
    {
      var f := Faulty();
      r := if f then Err(Fault) else if present then Ok(template) else Err(NotFound);
    }

    method UpdateFinalizer(finalizer: bool) returns (r: Result<()>)
      requires present
      modifies this`template, this`present, this`writes, this`budget
      ensures budget <= old(budget) && writes == old(writes) + 1
      ensures template == old(template) || template == old(template).(finalizer := finalizer)
      ensures r.Ok? ==>
        budget == old(budget) && template == old(template).(finalizer := finalizer)
          && present == (!template.deleting || finalizer)
      ensures r.Err? ==> budget < old(budget)
      ensures template != old(template) ==> present == (!template.deleting || finalizer)
      ensures !present ==> template.deleting && !finalizer
    {
      writes := writes + 1;
      var before := Faulty();
      if before {
        return Err(Fault);
      }
      template := template.(finalizer := finalizer);
      present := !template.deleting || finalizer;
      var after := Faulty();
      r := if after then Err(Fault) else Ok(());
    }
  }

  // ---- one hosted control plane ----

  /** Everything outside a namespace, and everything in it that the template does not select, is as it was. */
  ghost predicate OnlySelectedChange(m: map<Key, Obj>, m': map<Key, Obj>, t: VpceTemplate, namespace: string) {
    && (forall k | k in m && (k.namespace != namespace || !Selected(m[k], t)) :: k in m' && m'[k] == m[k])
    && (forall k | k in m' && k.namespace != namespace :: k in m)
  }

  /** What a pass wants of a namespace. */
  predicate Right(m: map<Key, Obj>, t: VpceTemplate, h: Hcp) {
    var selected := SelectedIn(m, t, h.namespace);
    if h.deleting then selected == {}
    else selected != {} && forall k | k in selected :: m[k].spec == t.spec
  }

  /** The namespace needs a new VpcEndpoint: it has none, or several of which none has the spec. */
  predicate NeedsNew(m: map<Key, Obj>, t: VpceTemplate, h: Hcp) {
    var selected := SelectedIn(m, t, h.namespace);
    !h.deleting && (forall k | k in selected :: m[k].spec != t.spec && selected != {k})
  }

  /** Those that have the template's spec. */
  function Matching(m: map<Key, Obj>, t: VpceTemplate, namespace: string): set<Key> {
    set k | k in SelectedIn(m, t, namespace) && m[k].spec == t.spec
  }

  /** In the namespace of a live control plane these are left alone, whatever fails. */
  ghost predicate MatchingStay(m: map<Key, Obj>, m': map<Key, Obj>, t: VpceTemplate, h: Hcp) {
    !h.deleting ==> forall k | k in Matching(m, t, h.namespace) :: k in m' && m'[k] == m[k]
  }

  /** Which are left: of a control plane that is being deleted none, otherwise all that had the spec, or exactly one
      when none had it. */
  predicate LeavesMatching(m: map<Key, Obj>, m': map<Key, Obj>, t: VpceTemplate, h: Hcp) {
    var left, matching := SelectedIn(m', t, h.namespace), Matching(m, t, h.namespace);
    if h.deleting then left == {}
    else if matching != {} then left == matching
    else |left| == 1
  }

  /** The name of the new one is taken by an object that the template does not select. */
  predicate Taken(m: map<Key, Obj>, t: VpceTemplate, h: Hcp) {
    var k := Key(h.namespace, t.name);
    k in m && !Selected(m[k], t)
  }

  /** The labels the template puts on what it creates make the template select that. */
  predicate SelectsItsOwn(t: VpceTemplate) {
    HasLabels(t.labels, t.matchLabels)
  }

  lemma SubsetSize<T>(a: set<T>, b: set<T>)
    requires a <= b
    ensures |a| <= |b|
    ensures |a| == |b| ==> a == b
    decreases b
  {
    if a != {} {
      var x :| x in a;
      SubsetSize(a - {x}, b - {x});
      assert a == a - {x} + {x} && b == b - {x} + {x};
    }
  }

  method CreateVpcEndpoint(api: TemplateApi, t: VpceTemplate, namespace: string) returns (res: Result<()>)
    modifies api`vpces, api`writes, api`budget
    ensures api.budget <= old(api.budget)
    ensures var k, o := Key(namespace, t.name), Obj(t.labels, t.spec, false);
      && (api.vpces == old(api.vpces) || (k !in old(api.vpces) && api.vpces == old(api.vpces)[k := o]))
      && (res.Ok? ==> api.budget == old(api.budget) && k !in old(api.vpces) && api.vpces == old(api.vpces)[k := o])
      && (res.Err? && api.budget == old(api.budget) ==> k in api.vpces && api.vpces == old(api.vpces))
  {
    res := api.Create(Key(namespace, t.name), Obj(t.labels, t.spec, false));
  }

  method ReplaceVpcEndpointSpec(api: TemplateApi, t: VpceTemplate, k: Key) returns (res: Result<()>)
    requires k in api.vpces
    modifies api`vpces, api`writes, api`budget
    ensures api.budget <= old(api.budget)
    ensures api.vpces == old(api.vpces) || api.vpces == old(api.vpces)[k := old(api.vpces)[k].(spec := t.spec)]
    ensures res.Ok? ==>
      api.budget == old(api.budget) && api.vpces == old(api.vpces)[k := old(api.vpces)[k].(spec := t.spec)]
    ensures res.Err? ==> api.budget < old(api.budget)
    ensures old(api.vpces)[k].spec == t.spec ==> res.Ok? && api.vpces == old(api.vpces) && api.writes == old(api.writes)
  {
    if api.vpces[k].spec != t.spec {
      res := api.Replace(k, t.spec);
    } else {
      res := Ok(());
    }
  }

  /** The objects without those that are listed, as far as they do not have the spec to keep. */
  function Without(m: map<Key, Obj>, keys: seq<Key>, keep: Option<Spec>): map<Key, Obj> {
    m - set k | k in keys && k in m && (keep.None? || m[k].spec != keep.value)
  }

  lemma WithoutOneMore(m: map<Key, Obj>, keys: seq<Key>, i: nat, keep: Option<Spec>)
    requires i < |keys| && keys[i] in m
    ensures Without(m, keys[..i + 1], keep) ==
      if Some(m[keys[i]].spec) == keep then Without(m, keys[..i], keep) else Without(m, keys[..i], keep) - {keys[i]}
  {
    assert keys[..i + 1] == keys[..i] + [keys[i]];
  }

  /** All listed objects have the spec to keep. */
  predicate AllKept(m: map<Key, Obj>, keys: seq<Key>, keep: Option<Spec>)
    requires forall k | k in keys :: k in m
  {
    forall k | k in keys :: Some(m[k].spec) == keep
  }

  /** Some listed object has the spec to keep. */
  predicate AnyKept(m: map<Key, Obj>, keys: set<Key>, keep: Option<Spec>) {
    exists k | k in keys :: k in m && Some(m[k].spec) == keep
  }

  lemma AnyKeptOneMore(m: map<Key, Obj>, keys: seq<Key>, i: nat, keep: Option<Spec>)
    requires i < |keys| && forall k | k in keys :: k in m
    ensures AnyKept(m, Elements(keys[..i]) + {keys[i]}, keep) <==>
      AnyKept(m, Elements(keys[..i]), keep) || Some(m[keys[i]].spec) == keep
    ensures AllKept(m, keys, keep) ==> Some(m[keys[i]].spec) == keep
  {
    assert keys[i] in keys;
  }

  /** Only listed objects may have been touched, and none with the spec to keep. */
  ghost predicate OthersKept(m: map<Key, Obj>, m': map<Key, Obj>, keys: set<Key>, keep: Option<Spec>) {
    && m'.Keys <= m.Keys
    && forall k | k in m && (k !in keys || Some(m[k].spec) == keep) :: k in m' && m'[k] == m[k]
  }

  /** The listed objects are gone or on their way out, except those with the spec to keep. */
  predicate Swept(m': map<Key, Obj>, keys: set<Key>, keep: Option<Spec>) {
    forall k | k in keys && k in m' :: m'[k].terminating || Some(m'[k].spec) == keep
  }

  /** One more object is looked at: it stays, or goes, or starts to go. */
  lemma SweptOneMore(m: map<Key, Obj>, d: map<Key, Obj>, m': map<Key, Obj>, before: set<Key>, k: Key,
                     keep: Option<Spec>)
    requires k !in before && k in m && OthersKept(m, d, before, keep) && Swept(d, before, keep)
    requires if Some(m[k].spec) == keep then m' == d
             else m' == d || m' == d - {k} || (k in d && m' == d[k := d[k].(terminating := true)])
    ensures k in d && d[k] == m[k]
    ensures OthersKept(m, m', before + {k}, keep)
    ensures Some(m[k].spec) == keep || (k in m' ==> m'[k].terminating) ==> Swept(m', before + {k}, keep)
  {
  }

  lemma KeptFromMore(m: map<Key, Obj>, m': map<Key, Obj>, keys: set<Key>, more: set<Key>, keep: Option<Spec>)
    requires OthersKept(m, m', keys, keep) && keys <= more
    ensures OthersKept(m, m', more, keep)
  {
  }

  /** The deletion loops: all listed objects, or all but those with the spec to keep. */
  method DeleteListed(api: TemplateApi, keys: seq<Key>, keep: Option<Spec>) returns (res: Result<()>, found: bool)
    requires NoDuplicates(keys) && forall k | k in keys :: k in api.vpces
    modifies api`vpces, api`writes, api`budget
    ensures api.budget <= old(api.budget)
    ensures OthersKept(old(api.vpces), api.vpces, Elements(keys), keep)
    ensures res.Ok? ==> found == AnyKept(old(api.vpces), Elements(keys), keep)
    ensures res.Ok? ==> Swept(api.vpces, Elements(keys), keep)
    ensures res.Ok? && api.budget == old(api.budget) ==> api.vpces == Without(old(api.vpces), keys, keep)
    ensures res.Err? ==> api.budget < old(api.budget)
    ensures AllKept(old(api.vpces), keys, keep) ==>
      res.Ok? && api.vpces == old(api.vpces) && api.writes == old(api.writes)
  {
    hide Without, Swept, OthersKept, AnyKept, AllKept;
    found := false;
    ghost var m := api.vpces;
    NothingListed(m, keep);
    assert keys[..0] == [] && Elements(keys[..0]) == {};
    for i := 0 to |keys|
      invariant api.budget <= old(api.budget)
      invariant OthersKept(m, api.vpces, Elements(keys[..i]), keep) && Swept(api.vpces, Elements(keys[..i]), keep)
      invariant found == AnyKept(m, Elements(keys[..i]), keep)
      invariant api.budget == old(api.budget) ==> api.vpces == Without(m, keys[..i], keep)
      invariant AllKept(m, keys, keep) ==> api.vpces == m && api.writes == old(api.writes)
    {
      assert keys[i] in keys && keys[i] !in keys[..i];
      assert Elements(keys[..i + 1]) == Elements(keys[..i]) + {keys[i]};
      ghost var d, before := api.vpces, Elements(keys[..i]);
      SweptOneMore(m, d, d, before, keys[i], keep);
      AnyKeptOneMore(m, keys, i, keep);
      WithoutOneMore(m, keys, i, keep);
      if Some(api.vpces[keys[i]].spec) == keep {
        found := true;
      } else {
        res := api.Delete(keys[i]);
        SweptOneMore(m, d, api.vpces, before, keys[i], keep);
        if res.Err? {
          KeptFromMore(m, api.vpces, before + {keys[i]}, Elements(keys), keep);
          return;
        }
      }
    }
    assert keys[..|keys|] == keys;
    res := Ok(());
  }

  lemma NothingListed(m: map<Key, Obj>, keep: Option<Spec>)
    ensures Without(m, [], keep) == m && Swept(m, {}, keep) && OthersKept(m, m, {}, keep) && !AnyKept(m, {}, keep)
  {
  }

  /** What a pass does to the namespace of a hosted control plane; `clean` is a pass without faults. */
  ghost predicate NamespaceRel(m: map<Key, Obj>, m': map<Key, Obj>, t: VpceTemplate, h: Hcp, ok: bool, clean: bool) {
    && OnlySelectedChange(m, m', t, h.namespace) && MatchingStay(m, m', t, h)
    // a clean pass makes the namespace right, unless the name for a new VpcEndpoint is taken
    && (clean ==> (ok <==> !(NeedsNew(m, t, h) && Taken(m, t, h))))
    && (clean && ok && SelectsItsOwn(t) ==> Right(m', t, h) && LeavesMatching(m, m', t, h))
  }

  /** One VpcEndpoint per namespace is what the template is for. A pass that nothing stood in the way of has achieved it
      exactly when at most one had the template's spec; two that have it both stay. */
  lemma ExactlyOneIff(m: map<Key, Obj>, m': map<Key, Obj>, t: VpceTemplate, h: Hcp)
    requires NamespaceRel(m, m', t, h, true, true) && SelectsItsOwn(t) && !h.deleting
    ensures |SelectedIn(m', t, h.namespace)| == 1 <==> |Matching(m, t, h.namespace)| <= 1
    // as many as had the spec, and so never more than there were
    ensures |SelectedIn(m', t, h.namespace)| <= 1 || |SelectedIn(m', t, h.namespace)| <= |SelectedIn(m, t, h.namespace)|
  {
    hide Selected, Right, NeedsNew, Taken, SelectsItsOwn;
    SubsetSize(Matching(m, t, h.namespace), SelectedIn(m, t, h.namespace));
  }

  /** Three are selected, two of them with the spec: a pass deletes the third and leaves two, which is right to it. */
  lemma TwoLeftExample(t: VpceTemplate, namespace: string, o: Obj, other: Obj)
    requires Selected(o, t) && o.spec == t.spec && Selected(other, t) && other.spec != t.spec
    ensures var a, b, c, h := Key(namespace, "a"), Key(namespace, "b"), Key(namespace, "c"), Hcp(namespace, false);
            var m, m' := map[a := o, b := o, c := other], map[a := o, b := o];
            && NamespaceRel(m, m', t, h, true, true) && Right(m', t, h) && !Right(m, t, h)
            && SelectedIn(m', t, namespace) == {a, b} && |SelectedIn(m', t, namespace)| == 2
  {
    hide Selected;
    var a, b, c := Key(namespace, "a"), Key(namespace, "b"), Key(namespace, "c");
    var m, m' := map[a := o, b := o, c := other], map[a := o, b := o];
    assert c in SelectedIn(m, t, namespace) && a in SelectedIn(m, t, namespace);
    assert SelectedIn(m', t, namespace) == {a, b} == Matching(m, t, namespace);
  }

  ghost predicate Lists(keys: seq<Key>, m: map<Key, Obj>, t: VpceTemplate, namespace: string) {
    forall k :: k in keys <==> k in SelectedIn(m, t, namespace)
  }

  lemma AfterDeletion(m: map<Key, Obj>, t: VpceTemplate, h: Hcp, keys: seq<Key>, keep: Option<Spec>)
    requires Lists(keys, m, t, h.namespace)
    ensures var m' := Without(m, keys, keep);
      forall k :: k in SelectedIn(m', t, h.namespace) <==> k in keys && Some(m[k].spec) == keep
  {
  }

  lemma WithoutKeeps(m: map<Key, Obj>, keys: seq<Key>, keep: Option<Spec>)
    ensures forall j | j in Without(m, keys, keep) :: j in m && Without(m, keys, keep)[j] == m[j]
  {
  }

  lemma DeletedKeepsOthers(m: map<Key, Obj>, m': map<Key, Obj>, t: VpceTemplate, namespace: string, keys: seq<Key>,
                           keep: Option<Spec>)
    requires Lists(keys, m, t, namespace) && OthersKept(m, m', Elements(keys), keep)
    ensures OnlySelectedChange(m, m', t, namespace)
  {
  }

  lemma DeletedKeepsMatching(m: map<Key, Obj>, m': map<Key, Obj>, t: VpceTemplate, h: Hcp, keys: seq<Key>)
    requires OthersKept(m, m', Elements(keys), Some(t.spec))
    ensures MatchingStay(m, m', t, h)
  {
  }

  /** The namespace of a control plane that is being deleted. */
  lemma AllDeleted(m: map<Key, Obj>, m': map<Key, Obj>, t: VpceTemplate, h: Hcp, keys: seq<Key>, ok: bool, clean: bool)
    requires Lists(keys, m, t, h.namespace) && OthersKept(m, m', Elements(keys), None) && h.deleting
    requires clean ==> ok && m' == Without(m, keys, None)
    ensures NamespaceRel(m, m', t, h, ok, clean)
  {
    hide Without;
    DeletedKeepsOthers(m, m', t, h.namespace, keys, None);
    AfterDeletion(m, t, h, keys, None);
  }

  /** Some of the selected ones have the spec: the others are deleted. */
  lemma Reduced(m: map<Key, Obj>, m': map<Key, Obj>, t: VpceTemplate, h: Hcp, keys: seq<Key>, ok: bool, clean: bool)
    requires Lists(keys, m, t, h.namespace) && OthersKept(m, m', Elements(keys), Some(t.spec)) && !h.deleting
    requires clean ==> ok && m' == Without(m, keys, Some(t.spec)) && exists k | k in keys :: m[k].spec == t.spec
    ensures NamespaceRel(m, m', t, h, ok, clean)
  {
    hide Without;
    DeletedKeepsOthers(m, m', t, h.namespace, keys, Some(t.spec));
    DeletedKeepsMatching(m, m', t, h, keys);
    AfterDeletion(m, t, h, keys, Some(t.spec));
    if clean {
      var k :| k in keys && m[k].spec == t.spec;
      assert k in SelectedIn(m, t, h.namespace) && k in SelectedIn(m', t, h.namespace);
      forall j | j in SelectedIn(m', t, h.namespace)
        ensures m'[j].spec == t.spec
      {
        assert j in keys;
      }
      assert SelectedIn(m', t, h.namespace) == Matching(m, t, h.namespace);
    }
  }

  /** None of them has it: a new one is created once they are gone; `d` is the state before the creation. */
  lemma Created(m: map<Key, Obj>, d: map<Key, Obj>, m': map<Key, Obj>, t: VpceTemplate, h: Hcp, ok: bool, clean: bool)
    requires OnlySelectedChange(m, d, t, h.namespace) && MatchingStay(m, d, t, h) && d.Keys <= m.Keys
    requires clean ==> NeedsNew(m, t, h) && SelectedIn(d, t, h.namespace) == {} && forall j | j in d :: d[j] == m[j]
    requires var k := Key(h.namespace, t.name);
      && (m' == d || (k !in d && m' == d[k := Obj(t.labels, t.spec, false)]))
      && (ok ==> k !in d && m' == d[k := Obj(t.labels, t.spec, false)])
      && (clean && !ok ==> k in d && m' == d)
    ensures NamespaceRel(m, m', t, h, ok, clean)
  {
    var k := Key(h.namespace, t.name);
    if clean && k in d {
      assert k !in SelectedIn(d, t, h.namespace);
    }
    if clean && ok && SelectsItsOwn(t) {
      assert m' == d[k := Obj(t.labels, t.spec, false)];
      forall j
        ensures j in SelectedIn(m', t, h.namespace) <==> j == k
      {
        assert j != k && j in m' ==> j !in SelectedIn(d, t, h.namespace);
      }
      assert SelectedIn(m', t, h.namespace) == {k};
    }
  }

  /** There is exactly one: its spec is replaced. */
  lemma Replaced(m: map<Key, Obj>, m': map<Key, Obj>, t: VpceTemplate, h: Hcp, k: Key, ok: bool, clean: bool)
    requires SelectedIn(m, t, h.namespace) == {k} && !h.deleting && (clean ==> ok)
    requires k in m && (m' == m || m' == m[k := m[k].(spec := t.spec)]) && (ok ==> m' == m[k := m[k].(spec := t.spec)])
    ensures NamespaceRel(m, m', t, h, ok, clean)
  {
    assert k in SelectedIn(m, t, h.namespace);
    if ok {
      assert SelectedIn(m', t, h.namespace) == {k};
    }
  }

  // ---- the same in the terms of labels ----

  /** The object lacks a label that the template matches on, or has it with another value. */
  ghost predicate Lacks(o: Obj, t: VpceTemplate) {
    exists l :: l in t.matchLabels && (l !in o.labels || o.labels[l] != t.matchLabels[l])
  }

  lemma LacksIff(o: Obj, t: VpceTemplate)
    ensures Lacks(o, t) <==> !Selected(o, t)
  {
  }

  /** The object has every label the template matches on, and its labels are as every match expression says. */
  ghost predicate Fits(o: Obj, t: VpceTemplate) {
    && t.matchLabels.Items <= o.labels.Items
    && forall q | q in t.expressions ::
         match q
         case In(l, values) => exists x :: (l, x) in o.labels.Items && x in values
         case NotIn(l, values) => forall x | (l, x) in o.labels.Items :: x !in values
         case Exists(l) => l in o.labels.Keys
         case DoesNotExist(l) => l !in o.labels.Keys
  }

  lemma FitsIff(o: Obj, t: VpceTemplate)
    ensures Fits(o, t) <==> Covered(o, t)
  {
    assert t.matchLabels.Items <= o.labels.Items <==> Selected(o, t) by {
      if t.matchLabels.Items <= o.labels.Items {
        forall l | l in t.matchLabels
          ensures l in o.labels && o.labels[l] == t.matchLabels[l]
        {
          assert (l, t.matchLabels[l]) in t.matchLabels.Items;
        }
      }
    }
    forall q | q in t.expressions && (q.In? || q.NotIn?)
      ensures q.key in o.labels ==> (q.key, o.labels[q.key]) in o.labels.Items
    {
    }
  }

  lemma CoveredAreFitting(m: map<Key, Obj>, t: VpceTemplate)
    ensures forall k | k in m :: Fits(m[k], t) <==> Covered(m[k], t)
  {
    hide Covered, Fits;
    forall k | k in m
      ensures Fits(m[k], t) <==> Covered(m[k], t)
    {
      FitsIff(m[k], t);
    }
  }

  /** The objects of a namespace that carry all labels the template matches on. */
  ghost function Ours(m: map<Key, Obj>, t: VpceTemplate, namespace: string): set<Key> {
    set k | k in m && k.namespace == namespace && !Lacks(m[k], t)
  }

  lemma OursAreSelected(m: map<Key, Obj>, t: VpceTemplate, namespace: string)
    ensures Ours(m, t, namespace) == SelectedIn(m, t, namespace)
  {
    hide Selected, Lacks;
    forall k | k in m
      ensures Lacks(m[k], t) <==> !Selected(m[k], t)
    {
      LacksIff(m[k], t);
    }
  }

  /** All that a pass without faults does. Where the control plane is being deleted, the objects with the labels go.
      Elsewhere those go that do not have the spec, if one has it; a single one without it gets it; and in any other
      case all go, and one is created, unless an object without the labels has its name. */
  ghost predicate Outcome(m: map<Key, Obj>, m': map<Key, Obj>, t: VpceTemplate, h: Hcp, ok: bool) {
    var ours, key := Ours(m, t, h.namespace), Key(h.namespace, t.name);
    var good := set k | k in ours && m[k].spec == t.spec;
    if h.deleting then ok && m' == m - ours
    else if good != {} then ok && m' == m - (ours - good)
    else if |ours| == 1 then ok && m' == m + map k | k in ours :: m[k].(spec := t.spec)
    else if key in m - ours then !ok && m' == m - ours
    else ok && m' == (m - ours)[key := Obj(t.labels, t.spec, false)]
  }

  lemma FewerThanNone(m: map<Key, Obj>, t: VpceTemplate, keys: set<Key>)
    requires keys <= m.Keys
    ensures keys == {} ==> (set k | k in keys && m[k].spec == t.spec) == {}
  {
  }

  /** In particular, a namespace without such objects gets one, when the name is free. */
  lemma StrangersOutcome(m: map<Key, Obj>, m': map<Key, Obj>, t: VpceTemplate, h: Hcp, ok: bool)
    requires Outcome(m, m', t, h, ok) && forall k | k in m && k.namespace == h.namespace :: Lacks(m[k], t)
    ensures var key := Key(h.namespace, t.name);
            if h.deleting then ok && m' == m
            else if key in m then !ok && m' == m else ok && m' == m[key := Obj(t.labels, t.spec, false)]
  {
    hide Lacks;
    FewerThanNone(m, t, Ours(m, t, h.namespace));
    assert Ours(m, t, h.namespace) == {} && m - {} == m;
  }

  lemma DeletionOutcome(m: map<Key, Obj>, t: VpceTemplate, h: Hcp, keys: seq<Key>)
    requires Lists(keys, m, t, h.namespace)
    ensures h.deleting ==> Outcome(m, Without(m, keys, None), t, h, true)
    ensures !h.deleting && (exists k | k in keys :: m[k].spec == t.spec) ==>
      Outcome(m, Without(m, keys, Some(t.spec)), t, h, true)
    ensures (forall k | k in keys :: m[k].spec != t.spec) ==>
      Without(m, keys, Some(t.spec)) == m - Ours(m, t, h.namespace)
  {
    hide Lacks, Selected;
    OursAreSelected(m, t, h.namespace);
    var ours := Ours(m, t, h.namespace);
    var good := set k | k in ours && m[k].spec == t.spec;
    assert Without(m, keys, None) == m - ours;
    assert Without(m, keys, Some(t.spec)) == m - (ours - good);
    if k :| k in keys && m[k].spec == t.spec {
      assert k in good;
    }
  }

  lemma CreationOutcome(m: map<Key, Obj>, m': map<Key, Obj>, t: VpceTemplate, h: Hcp, keys: seq<Key>, ok: bool)
    requires Lists(keys, m, t, h.namespace) && NoDuplicates(keys) && |keys| != 1 && !h.deleting
    requires forall k | k in keys :: m[k].spec != t.spec
    requires var d, key := m - Ours(m, t, h.namespace), Key(h.namespace, t.name);
             if key in d then !ok && m' == d else ok && m' == d[key := Obj(t.labels, t.spec, false)]
    ensures Outcome(m, m', t, h, ok)
  {
    hide Lacks, Selected;
    OursAreSelected(m, t, h.namespace);
    var ours := Ours(m, t, h.namespace);
    if |keys| > 1 {
      assert keys[0] in ours && keys[1] in ours && keys[0] != keys[1];
      SubsetSize({keys[0], keys[1]}, ours);
    } else {
      assert ours == {};
    }
  }

  lemma ReplacementOutcome(m: map<Key, Obj>, t: VpceTemplate, h: Hcp, k: Key)
    requires SelectedIn(m, t, h.namespace) == {k} && !h.deleting
    ensures k in m && Outcome(m, m[k := m[k].(spec := t.spec)], t, h, true)
  {
    hide Lacks, Selected;
    OursAreSelected(m, t, h.namespace);
    var ours := Ours(m, t, h.namespace);
    assert k in SelectedIn(m, t, h.namespace);
    var good := set j | j in ours && m[j].spec == t.spec;
    if m[k].spec == t.spec {
      assert good == ours == {k};
      assert m[k := m[k].(spec := t.spec)] == m == m - (ours - good);
    } else {
      assert m[k := m[k].(spec := t.spec)] == m + map j | j in ours :: m[j].(spec := t.spec);
    }
  }

  /** Several are selected: only those with the spec stay, and if there are none one is created. */
  method ReduceToOne(api: TemplateApi, t: VpceTemplate, h: Hcp, keys: seq<Key>) returns (res: Result<()>)
    requires Lists(keys, api.vpces, t, h.namespace) && NoDuplicates(keys) && |keys| > 1 && !h.deleting
    modifies api`vpces, api`writes, api`budget
    ensures api.budget <= old(api.budget)
    ensures NamespaceRel(old(api.vpces), api.vpces, t, h, res.Ok?, api.budget == old(api.budget))
    ensures api.budget == old(api.budget) ==> Outcome(old(api.vpces), api.vpces, t, h, res.Ok?)
    ensures (forall k | k in keys :: old(api.vpces)[k].spec == t.spec) ==>
      api.vpces == old(api.vpces) && api.writes == old(api.writes)
  {
    hide Without, NamespaceRel, OnlySelectedChange, MatchingStay, Outcome, Ours;
    ghost var m := api.vpces;
    DeletionOutcome(m, t, h, keys);
    assert keys[0] in keys && keys[1] in keys;
    assert AllKept(m, keys, Some(t.spec)) <==> forall k | k in keys :: m[k].spec == t.spec;
    var found;
    res, found := DeleteListed(api, keys, Some(t.spec));
    ghost var d, clean := api.vpces, api.budget == old(api.budget);
    if res.Err? || found {
      Reduced(m, d, t, h, keys, res.Ok?, clean);
      return;
    }
    DeletedKeepsOthers(m, d, t, h.namespace, keys, Some(t.spec));
    DeletedKeepsMatching(m, d, t, h, keys);
    if clean {
      AfterDeletion(m, t, h, keys, Some(t.spec));
      WithoutKeeps(m, keys, Some(t.spec));
    }
    res := CreateVpcEndpoint(api, t, h.namespace);
    Created(m, d, api.vpces, t, h, res.Ok?, api.budget == old(api.budget));
    if api.budget == old(api.budget) {
      CreationOutcome(m, api.vpces, t, h, keys, res.Ok?);
    }
  }

  /** One hosted control plane: none, one or several VpcEndpoints are selected in its namespace. */
  method ValidateNamespace(api: TemplateApi, t: VpceTemplate, h: Hcp) returns (res: Result<()>)
    modifies api`vpces, api`writes, api`budget
    ensures api.budget <= old(api.budget)
    ensures NamespaceRel(old(api.vpces), api.vpces, t, h, res.Ok?, api.budget == old(api.budget))
    // in the terms of labels: all that happens without faults, and what is left alone in any case
    ensures api.budget == old(api.budget) ==> Outcome(old(api.vpces), api.vpces, t, h, res.Ok?)
    ensures forall k | k in old(api.vpces) && Lacks(old(api.vpces)[k], t) ::
      k in api.vpces && api.vpces[k] == old(api.vpces)[k]
    // a namespace that is right is left alone, even with faults
    ensures Right(old(api.vpces), t, h) ==> api.vpces == old(api.vpces) && api.writes == old(api.writes)
  {
    hide Without, NamespaceRel, LeavesMatching, Outcome, Ours, Lacks;
    ghost var m := api.vpces;
    LacksAreNotSelected(m, t);
    var listed := api.ListSelected(t, h.namespace);
    if listed.Err? {
      NothingDone(m, t, h);
      return Err(listed.error);
    }
    var keys := listed.value;
    if h.deleting {
      var found;
      res, found := DeleteListed(api, keys, None);
      AllDeleted(m, api.vpces, t, h, keys, res.Ok?, api.budget == old(api.budget));
      DeletionOutcome(m, t, h, keys);
    } else if |keys| > 1 {
      res := ReduceToOne(api, t, h, keys);
    } else if |keys| == 1 {
      assert keys[0] in keys;
      assert SelectedIn(m, t, h.namespace) == {keys[0]};
      res := ReplaceVpcEndpointSpec(api, t, keys[0]);
      Replaced(m, api.vpces, t, h, keys[0], res.Ok?, api.budget == old(api.budget));
      ReplacementOutcome(m, t, h, keys[0]);
    } else {
      res := CreateVpcEndpoint(api, t, h.namespace);
      assert SelectedIn(m, t, h.namespace) == {};
      Created(m, m, api.vpces, t, h, res.Ok?, api.budget == old(api.budget));
      OursAreSelected(m, t, h.namespace);
      assert m - {} == m;
      if api.budget == old(api.budget) {
        CreationOutcome(m, api.vpces, t, h, keys, res.Ok?);
      }
    }
    OthersUntouched(m, api.vpces, t, h, res.Ok?, api.budget == old(api.budget));
  }

  lemma LacksAreNotSelected(m: map<Key, Obj>, t: VpceTemplate)
    ensures forall k | k in m :: Lacks(m[k], t) <==> !Selected(m[k], t)
  {
    hide Selected, Lacks;
    forall k | k in m
      ensures Lacks(m[k], t) <==> !Selected(m[k], t)
    {
      LacksIff(m[k], t);
    }
  }

  lemma OthersUntouched(m: map<Key, Obj>, m': map<Key, Obj>, t: VpceTemplate, h: Hcp, ok: bool, clean: bool)
    requires NamespaceRel(m, m', t, h, ok, clean)
    ensures forall k | k in m && !Selected(m[k], t) :: k in m' && m'[k] == m[k]
  {
    hide Selected;
  }

  lemma NothingDone(m: map<Key, Obj>, t: VpceTemplate, h: Hcp)
    ensures NamespaceRel(m, m, t, h, false, false)
  {
  }

  // ---- all of them ----

  ghost predicate SameNamespace(m: map<Key, Obj>, m': map<Key, Obj>, namespace: string) {
    forall k: Key | k.namespace == namespace :: (k in m <==> k in m') && (k in m ==> m[k] == m'[k])
  }

  lemma SameIsRight(m: map<Key, Obj>, m': map<Key, Obj>, t: VpceTemplate, h: Hcp)
    requires SameNamespace(m, m', h.namespace)
    ensures SelectedIn(m, t, h.namespace) == SelectedIn(m', t, h.namespace)
    ensures Right(m, t, h) == Right(m', t, h) && NeedsNew(m, t, h) == NeedsNew(m', t, h)
      && Taken(m, t, h) == Taken(m', t, h)
    ensures Matching(m, t, h.namespace) == Matching(m', t, h.namespace)
  {
    assert forall k :: k in SelectedIn(m, t, h.namespace) <==> k in SelectedIn(m', t, h.namespace);
  }

  lemma OtherNamespace(m: map<Key, Obj>, m': map<Key, Obj>, t: VpceTemplate, namespace: string, other: string)
    requires OnlySelectedChange(m, m', t, namespace) && other != namespace
    ensures SameNamespace(m, m', other)
  {
  }

  lemma SameTwice(m: map<Key, Obj>, m': map<Key, Obj>, m'': map<Key, Obj>, namespace: string)
    requires SameNamespace(m, m', namespace) && SameNamespace(m', m'', namespace)
    ensures SameNamespace(m, m'', namespace)
  {
  }

  predicate OneEach(hcps: seq<Hcp>) {
    forall i, j :: 0 <= i < j < |hcps| ==> hcps[i].namespace != hcps[j].namespace
  }

  /** The template cannot get its VpcEndpoint into this namespace. */
  predicate Blocked(m: map<Key, Obj>, t: VpceTemplate, h: Hcp) {
    NeedsNew(m, t, h) && Taken(m, t, h)
  }

  /** Settled, with what had the spec before. */
  predicate Served(m: map<Key, Obj>, m': map<Key, Obj>, t: VpceTemplate, h: Hcp) {
    Right(m', t, h) && LeavesMatching(m, m', t, h)
  }

  lemma ServedFollows(m: map<Key, Obj>, m': map<Key, Obj>, m'': map<Key, Obj>, t: VpceTemplate, h: Hcp)
    requires Served(m, m', t, h) && SameNamespace(m', m'', h.namespace)
    ensures Served(m, m'', t, h)
  {
    SameIsRight(m', m'', t, h);
  }

  lemma ServedFromSame(m: map<Key, Obj>, m': map<Key, Obj>, m'': map<Key, Obj>, t: VpceTemplate, h: Hcp)
    requires SameNamespace(m, m', h.namespace) && NamespaceRel(m', m'', t, h, true, true) && SelectsItsOwn(t)
    ensures Served(m, m'', t, h)
  {
    SameIsRight(m, m', t, h);
  }

  /** What a pass over these control planes does. */
  ghost predicate PassRel(m: map<Key, Obj>, m': map<Key, Obj>, t: VpceTemplate, hcps: seq<Hcp>, ok: bool, clean: bool) {
    // other namespaces, and objects that are not selected, are untouched, however the pass ends
    && (forall namespace | (forall h | h in hcps :: h.namespace != namespace) :: SameNamespace(m, m', namespace))
    && (forall k | k in m && !Selected(m[k], t) :: k in m' && m'[k] == m[k])
    // and so are, in live namespaces, those that have the spec
    && (OneEach(hcps) ==> forall h | h in hcps :: MatchingStay(m, m', t, h))
    // a clean pass serves every control plane, unless it is blocked
    && (OneEach(hcps) && clean ==> (ok <==> forall h | h in hcps :: !Blocked(m, t, h)))
    && (OneEach(hcps) && clean && ok && SelectsItsOwn(t) ==> forall h | h in hcps :: Served(m, m', t, h))
  }

  /** ValidateVpcEndpointForHostedControlPlanes. */
  method ValidateAll(api: TemplateApi, t: VpceTemplate, hcps: seq<Hcp>) returns (res: Result<()>)
    modifies api`vpces, api`writes, api`budget
    ensures api.budget <= old(api.budget)
    ensures PassRel(old(api.vpces), api.vpces, t, hcps, res.Ok?, api.budget == old(api.budget))
    // what lacks a label that the template matches on is left alone, whatever fails
    ensures forall k | k in old(api.vpces) && Lacks(old(api.vpces)[k], t) ::
      k in api.vpces && api.vpces[k] == old(api.vpces)[k]
    // the fixed point: when every namespace is right, nothing is written
    ensures (forall h | h in hcps :: Right(old(api.vpces), t, h)) ==>
      api.vpces == old(api.vpces) && api.writes == old(api.writes)
  {
    hide NamespaceRel, Right, NeedsNew, Taken, Served, SelectsItsOwn, LeavesMatching, MatchingStay, Selected, Lacks,
         Outcome;
    MatchingStayNow(api.vpces, t, hcps);
    LacksAreNotSelected(api.vpces, t);
    ghost var m := api.vpces;
    for i := 0 to |hcps|
      invariant api.budget <= old(api.budget)
      invariant forall namespace | (forall h | h in hcps[..i] :: h.namespace != namespace) ::
        SameNamespace(m, api.vpces, namespace)
      invariant forall k | k in m && !Selected(m[k], t) :: k in api.vpces && api.vpces[k] == m[k]
      invariant OneEach(hcps) ==> forall h | h in hcps :: MatchingStay(m, api.vpces, t, h)
      invariant OneEach(hcps) && api.budget == old(api.budget) ==> forall j | 0 <= j < i :: !Blocked(m, t, hcps[j])
      invariant OneEach(hcps) && api.budget == old(api.budget) && SelectsItsOwn(t) ==>
        forall j | 0 <= j < i :: Served(m, api.vpces, t, hcps[j])
      invariant (forall h | h in hcps :: Right(m, t, h)) ==> api.vpces == m && api.writes == old(api.writes)
    {
      var h := hcps[i];
      ghost var d, budget := api.vpces, api.budget;
      assert h in hcps;
      res := ValidateNamespace(api, t, h);
      OneNamespaceLater(m, d, api.vpces, t, hcps, i, res.Ok?, budget == old(api.budget), api.budget == budget);
      if res.Err? {
        return;
      }
    }
    assert hcps[..|hcps|] == hcps;
    res := Ok(());
  }

  lemma MatchingStayNow(m: map<Key, Obj>, t: VpceTemplate, hcps: seq<Hcp>)
    ensures forall h | h in hcps :: MatchingStay(m, m, t, h)
  {
  }

  lemma MatchingStayOn(m: map<Key, Obj>, m': map<Key, Obj>, m'': map<Key, Obj>, t: VpceTemplate, h: Hcp)
    requires MatchingStay(m, m', t, h) && (MatchingStay(m', m'', t, h) || SameNamespace(m', m'', h.namespace))
    ensures MatchingStay(m, m'', t, h)
  {
    if !h.deleting {
      forall k | k in Matching(m, t, h.namespace)
        ensures k in m'' && m''[k] == m[k]
      {
        assert k in Matching(m', t, h.namespace);
      }
    }
  }

  lemma OneNamespaceLater(m: map<Key, Obj>, d: map<Key, Obj>, m': map<Key, Obj>, t: VpceTemplate, hcps: seq<Hcp>,
                          i: nat, ok: bool,
                          before: bool, cleanCall: bool)
    requires i < |hcps| && NamespaceRel(d, m', t, hcps[i], ok, cleanCall)
    requires forall namespace | (forall h | h in hcps[..i] :: h.namespace != namespace) ::
      SameNamespace(m, d, namespace)
    requires forall k | k in m && !Selected(m[k], t) :: k in d && d[k] == m[k]
    requires OneEach(hcps) ==> forall h | h in hcps :: MatchingStay(m, d, t, h)
    requires OneEach(hcps) && before && SelectsItsOwn(t) ==> forall j | 0 <= j < i :: Served(m, d, t, hcps[j])
    ensures forall namespace | (forall h | h in hcps[..i + 1] :: h.namespace != namespace) ::
      SameNamespace(m, m', namespace)
    ensures forall k | k in m && !Selected(m[k], t) :: k in m' && m'[k] == m[k]
    ensures OneEach(hcps) ==> forall h | h in hcps :: MatchingStay(m, m', t, h)
    ensures OneEach(hcps) && cleanCall ==> (ok <==> !Blocked(m, t, hcps[i]))
    ensures OneEach(hcps) && before && cleanCall && ok && SelectsItsOwn(t) ==>
      forall j | 0 <= j <= i :: Served(m, m', t, hcps[j])
  {
    hide SelectsItsOwn, LeavesMatching, MatchingStay, Selected;
    var h := hcps[i];
    assert hcps[..i + 1] == hcps[..i] + [h];
    forall namespace | forall g | g in hcps[..i + 1] :: g.namespace != namespace
      ensures SameNamespace(m, m', namespace)
    {
      assert h in hcps[..i + 1];
      assert forall g | g in hcps[..i] :: g in hcps[..i + 1];
      OtherNamespace(d, m', t, h.namespace, namespace);
      SameTwice(m, d, m', namespace);
    }
    if OneEach(hcps) {
      forall g | g in hcps
        ensures MatchingStay(m, m', t, g)
      {
        if g.namespace != h.namespace {
          OtherNamespace(d, m', t, h.namespace, g.namespace);
        }
        MatchingStayOn(m, d, m', t, g);
      }
    }
    if OneEach(hcps) && cleanCall {
      assert SameNamespace(m, d, h.namespace);
      SameIsRight(m, d, t, h);
      if before && ok && SelectsItsOwn(t) {
        ServedFromSame(m, d, m', t, h);
        forall j | 0 <= j < i
          ensures Served(m, m', t, hcps[j])
        {
          OtherNamespace(d, m', t, h.namespace, hcps[j].namespace);
          ServedFollows(m, d, m', t, hcps[j]);
        }
      }
    }
  }

  // ---- Reconcile ----

  /** The deletion of the template: everything that the whole selector covers, in all namespaces, then the finalizer. */
  method DeleteTemplate(api: TemplateApi, t: VpceTemplate) returns (res: Result<()>)
    requires api.present && api.template == t && t.deleting
    modifies api`vpces, api`template, api`present, api`writes, api`budget
    ensures api.budget <= old(api.budget)
    // what the whole selector does not fit stays
    ensures forall k | k in old(api.vpces) && !Fits(old(api.vpces)[k], t) ::
      k in api.vpces && api.vpces[k] == old(api.vpces)[k]
    ensures api.vpces.Keys <= old(api.vpces).Keys
    ensures api.budget == old(api.budget) ==> res.Ok?
    // a clean pass leaves exactly that
    ensures api.budget == old(api.budget) && t.finalizer ==>
      forall k :: k in api.vpces <==> k in old(api.vpces) && !Fits(old(api.vpces)[k], t)
    ensures res.Ok? ==> !api.present
    ensures api.present ==> api.template == t
    // the finalizer goes only when everything covered is gone or on its way out
    ensures !api.present && t.finalizer ==>
      forall k | k in api.vpces && Fits(old(api.vpces)[k], t) :: api.vpces[k].terminating
  {
    hide Fits, Covered;
    CoveredAreFitting(api.vpces, t);
    if t.finalizer {
      var listed := api.ListCovered(t);
      if listed.Err? {
        return Err(listed.error);
      }
      var found;
      res, found := DeleteListed(api, listed.value, None);
      if res.Err? {
        return;
      }
    }
    res := api.UpdateFinalizer(false);
  }

  /** Reconcile of a template. */
  method Reconcile(api: TemplateApi) returns (res: Result<()>)
    modifies api`vpces, api`template, api`present, api`writes, api`budget
    ensures api.budget <= old(api.budget)
    // a template that is being deleted creates nothing and touches only what its whole selector fits
    ensures old(api.present) && old(api.template.deleting) ==>
      && api.vpces.Keys <= old(api.vpces).Keys
      && (forall k | k in old(api.vpces) && !Fits(old(api.vpces)[k], old(api.template)) ::
            k in api.vpces && api.vpces[k] == old(api.vpces)[k])
      && (api.budget == old(api.budget) && old(api.template.finalizer) ==>
            !api.present && forall k :: k in api.vpces <==>
              k in old(api.vpces) && !Fits(old(api.vpces)[k], old(api.template)))
    // nothing is created before the finalizer is persisted
    ensures old(api.present) && !old(api.template.deleting) ==>
      && api.present && (api.template == old(api.template) || api.template == old(api.template).(finalizer := true))
      && (api.vpces != old(api.vpces) ==> api.template.finalizer && api.template.hcp)
    // a clean pass serves every hosted control plane, and one over a served cluster writes nothing
    ensures old(api.present) && !old(api.template.deleting) && old(api.template.hcp) && OneEach(api.hcps)
            && api.budget == old(api.budget) ==>
      && (res.Ok? <==> forall h | h in api.hcps :: !Blocked(old(api.vpces), old(api.template), h))
      && (res.Ok? && SelectsItsOwn(api.template) ==>
            forall h | h in api.hcps :: Served(old(api.vpces), api.vpces, api.template, h))
    // what lacks a label that the template matches on is left alone, whatever fails
    ensures !old(api.template.deleting) ==> forall k | k in old(api.vpces) && Lacks(old(api.vpces)[k], api.template) ::
      k in api.vpces && api.vpces[k] == old(api.vpces)[k]
    // what has the spec stays in live namespaces, whatever fails
    ensures !old(api.template.deleting) && OneEach(api.hcps) ==>
      forall h | h in api.hcps :: MatchingStay(old(api.vpces), api.vpces, api.template, h)
    ensures old(api.present) && !old(api.template.deleting) && old(api.template.finalizer)
            && (forall h | h in api.hcps :: Right(old(api.vpces), api.template, h)) ==>
      api.vpces == old(api.vpces) && api.writes == old(api.writes)
    // a template that is gone is a success, one that could not be read is not
    ensures !old(api.present) ==>
      api.vpces == old(api.vpces) && api.writes == old(api.writes) && (res.Ok? <==> api.budget == old(api.budget))
    // a clean pass over a template for anything else than hosted control planes only sees to the finalizer
    ensures old(api.present) && !old(api.template.deleting) && !old(api.template.hcp)
            && api.budget == old(api.budget) ==>
      res.Ok? && api.vpces == old(api.vpces) && api.template.finalizer
    ensures old(api.present) && old(api.template.deleting) && api.budget == old(api.budget) ==>
      res.Ok? && !api.present
  {
    var got := api.GetTemplate();
    if got.Err? {
      return if got.error == NotFound then Ok(()) else Err(got.error);
    }
    var t := got.value;
    if t.deleting {
      res := DeleteTemplate(api, t);
      return;
    }
    if !t.finalizer {
      res := api.UpdateFinalizer(true);
      if res.Err? {
        return;
      }
      t := api.template;
    }
    if !t.hcp {
      return Ok(());
    }
    var hcps := api.ListHcps();
    if hcps.Err? {
      return Err(hcps.error);
    }
    res := ValidateAll(api, t, hcps.value);
  }

  /** The fixed point over runs: once every namespace is right, no number of further passes writes anything, whether or
      not their calls fail. */
  method KeepServing(api: TemplateApi, passes: nat)
    requires api.present && api.template.finalizer && !api.template.deleting
    requires forall h | h in api.hcps :: Right(api.vpces, api.template, h)
    modifies api`vpces, api`template, api`present, api`writes, api`budget
    ensures api.vpces == old(api.vpces) && api.writes == old(api.writes)
  {
    hide Right;
    for i := 0 to passes
      invariant api.present && api.template == old(api.template)
      invariant api.vpces == old(api.vpces) && api.writes == old(api.writes)
    {
      var out := Reconcile(api);
    }
  }

  /** Two VpcEndpoints with the template's spec in the namespace of a live control plane: neither ever goes, in any
      number of passes and whatever fails. */
  method DuplicatesStay(api: TemplateApi, passes: nat, h: Hcp, a: Key, b: Key)
    requires api.present && !api.template.deleting && OneEach(api.hcps) && h in api.hcps && !h.deleting
    requires a != b && {a, b} <= Matching(api.vpces, api.template, h.namespace)
    modifies api`vpces, api`template, api`present, api`writes, api`budget
    ensures {a, b} <= Matching(api.vpces, api.template, h.namespace)
    ensures |SelectedIn(api.vpces, api.template, h.namespace)| >= 2
  {
    hide SelectedIn, Selected;
    for i := 0 to passes
      invariant api.present && !api.template.deleting
      invariant {a, b} <= Matching(api.vpces, api.template, h.namespace)
    {
      ghost var m, t := api.vpces, api.template;
      var out := Reconcile(api);
      StillMatching(m, api.vpces, t, api.template, h);
    }
    SubsetSize({a, b}, SelectedIn(api.vpces, api.template, h.namespace));
  }

  lemma StillMatching(m: map<Key, Obj>, m': map<Key, Obj>, t: VpceTemplate, t': VpceTemplate, h: Hcp)
    requires t' == t.(finalizer := t'.finalizer) && !h.deleting
    requires MatchingStay(m, m', t', h)
    ensures Matching(m, t, h.namespace) <= Matching(m', t', h.namespace)
  {
    assert Matching(m, t, h.namespace) == Matching(m, t', h.namespace);
  }
}
