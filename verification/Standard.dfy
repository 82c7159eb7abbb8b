/**
 Workloads with a pod template and the default mapping: the laws of projection
 apply to every such workload whose lists can be read, also when a binding
 names the default containers path once more.
 */
module Standard {

  import opened Documents
  import opened Entries
  import opened Pods
  import opened Views
  import opened Projection
  import opened Slots
  import opened Laws
  import opened Templates
  import opened Stored
  import opened Theorems
  import opened Applications

  // ---- Where a JSONPath search goes ----

  /** A location that follows a JSONPath step by step. */
  predicate Along(l: Loc, nodes: seq<PathNode>)
  {
    |l| == |nodes| &&
    forall j :: 0 <= j < |l| ==> if nodes[j].Field? then l[j] == Key(nodes[j].name) else l[j].At?
  }

  predicate AllAlong(ls: seq<Loc>, nodes: seq<PathNode>)
  {
    forall i :: 0 <= i < |ls| ==> Along(ls[i], nodes)
  }

  predicate Suits(s: Step, node: PathNode)
  {
    if node.Field? then s == Key(node.name) else s.At?
  }

  lemma AlongStep(l: Loc, nodes: seq<PathNode>, s: Step)
    requires |l| < |nodes| && Along(l, nodes[..|l|]) && Suits(s, nodes[|l|])
    ensures Along(l + [s], nodes[..|l| + 1])
  {
  }

  lemma {:induction false} FieldsAlong(doc: Json, ins: seq<Loc>, nodes: seq<PathNode>, k: nat)
    requires k < |nodes| && nodes[k].Field? && AllAlong(ins, nodes[..k])
    ensures AllAlong(FieldsOf(doc, ins, nodes[k].name), nodes[..k + 1])
  {
    hide Walk;
    if ins != [] {
      assert Along(ins[0], nodes[..k]);
      AlongStep(ins[0], nodes, Key(nodes[k].name));
      FieldsAlong(doc, ins[1..], nodes, k);
    }
  }

  lemma ElementsAlong(l: Loc, n: nat, nodes: seq<PathNode>, k: nat)
    requires k < |nodes| && nodes[k].AllItems? && Along(l, nodes[..k])
    ensures AllAlong(Elements(l, n), nodes[..k + 1])
  {
    forall i | 0 <= i < n ensures Along(l + [At(i)], nodes[..k + 1]) { AlongStep(l, nodes, At(i)); }
  }

  lemma {:induction false} ItemsAlong(doc: Json, ins: seq<Loc>, nodes: seq<PathNode>, k: nat)
    requires k < |nodes| && nodes[k].AllItems? && AllAlong(ins, nodes[..k])
    ensures EvalItems(doc, ins).Some? ==> AllAlong(EvalItems(doc, ins).value, nodes[..k + 1])
  {
    hide Walk, Along, Elements;
    if ins != [] {
      assert Along(ins[0], nodes[..k]);
      if Walk(doc, ins[0]).Found? && Walk(doc, ins[0]).value.List? {
        ElementsAlong(ins[0], |Walk(doc, ins[0]).value.items|, nodes, k);
      }
      ItemsAlong(doc, ins[1..], nodes, k);
    }
  }

  /** A location on the way of a path. */
  predicate Partway(l: Loc, nodes: seq<PathNode>)
  {
    |l| <= |nodes| && Along(l, nodes[..|l|])
  }

  lemma NodeAlong(doc: Json, ins: seq<Loc>, nodes: seq<PathNode>, k: nat)
    requires k < |nodes| && AllAlong(ins, nodes[..k])
    ensures forall l :: l in VisitNode(ins, nodes[k]) ==> Partway(l, nodes)
    ensures EvalNode(doc, ins, nodes[k]).Some? ==> AllAlong(EvalNode(doc, ins, nodes[k]).value, nodes[..k + 1])
  {
    hide Walk, FieldsOf, EvalItems;
    forall i | 0 <= i < |ins| && nodes[k].Field? ensures Partway(ins[i] + [Key(nodes[k].name)], nodes) {
      assert Along(ins[i], nodes[..k]);
      AlongStep(ins[i], nodes, Key(nodes[k].name));
    }
    forall l | l in VisitNode(ins, nodes[k]) ensures Partway(l, nodes) {
      var i :| 0 <= i < |ins| && l == if nodes[k].Field? then ins[i] + [Key(nodes[k].name)] else ins[i];
      assert Along(ins[i], nodes[..k]);
    }
    if nodes[k].Field? { FieldsAlong(doc, ins, nodes, k); } else { ItemsAlong(doc, ins, nodes, k); }
  }

  /** Results follow the whole path, and visited locations a part of it. */
  lemma {:induction false} EvalAlong(doc: Json, ins: seq<Loc>, nodes: seq<PathNode>, k: nat)
    requires k <= |nodes| && AllAlong(ins, nodes[..k])
    ensures Eval(doc, ins, nodes[k..]).Some? ==> AllAlong(Eval(doc, ins, nodes[k..]).value, nodes)
    ensures forall l :: l in VisitNodes(doc, ins, nodes[k..]) ==> Partway(l, nodes)
    decreases |nodes| - k
  {
    hide EvalNode, VisitNode, AllAlong, Along, Partway;
    if k == |nodes| {
      assert nodes[..k] == nodes;
    } else {
      assert nodes[k..][0] == nodes[k] && nodes[k..][1..] == nodes[k + 1..];
      NodeAlong(doc, ins, nodes, k);
      var outs := EvalNode(doc, ins, nodes[k]);
      if outs.Some? { EvalAlong(doc, outs.value, nodes, k + 1); }
    }
  }

  // ---- Pod templates ----

  const CONTAINERS := "containers"
  const INIT_CONTAINERS := "initContainers"

  function PodPath(list: string): seq<PathNode>
  {
    [Field("spec"), Field("template"), Field("spec"), Field(list), AllItems]
  }

  function PodContainer(list: string): WorkloadContainer
  {
    WorkloadContainer(PodPath(list), ["name"], ["env"], ["envFrom"], ["volumeMounts"])
  }

  predicate IsPodContainer(wc: WorkloadContainer)
  {
    wc == PodContainer(CONTAINERS) || wc == PodContainer(INIT_CONTAINERS)
  }

  /** A path to some other field of the pod spec. */
  predicate PodVolume(path: seq<string>)
  {
    && |path| == 4 && path[..3] == ["spec", "template", "spec"]
    && path[3] != CONTAINERS && path[3] != INIT_CONTAINERS
  }

  /** A selection over the two container lists of a pod template, each named any
      number of times, with volumes in some other field of the pod spec. */
  predicate PodSelection(sel: Selection)
  {
    PodVolume(sel.mapping.volume) &&
    forall i :: 0 <= i < |sel.mapping.containers| ==> IsPodContainer(sel.mapping.containers[i])
  }

  /** An item of one of the two lists. */
  predicate PodItem(l: Loc)
  {
    Along(l, PodPath(CONTAINERS)) || Along(l, PodPath(INIT_CONTAINERS))
  }

  function PodHandle(l: Loc): MetaContainer
  {
    MetaContainer(l, ["env"], ["envFrom"], ["volumeMounts"])
  }

  /** A location that the search may visit: on the way to a list item, or the
      name of a container found there. */
  predicate PodVisit(l: Loc)
  {
    Partway(l, PodPath(CONTAINERS)) || Partway(l, PodPath(INIT_CONTAINERS)) ||
    (|l| > 5 && PodItem(l[..5]) && (l[5] == Key("name") || l[5].At?))
  }

  /** A map found at an item, or in the list that an item is. */
  predicate InItem(l: Loc)
  {
    |l| >= 5 && PodItem(l[..5])
  }

  lemma ItemNames(doc: Json, l: Loc)
    requires PodItem(l)
    ensures Located(doc, l).Some? ==>
      forall i :: 0 <= i < |Located(doc, l).value| ==> InItem(Located(doc, l).value[i])
    ensures Located(doc, l).Some? ==> forall q :: q in VisitNames(Located(doc, l).value, ["name"]) ==> PodVisit(q)
  {
    hide Walk, Along;
    assert |l| == 5 && l[..5] == l by {
      assert Along(l, PodPath(CONTAINERS)) || Along(l, PodPath(INIT_CONTAINERS));
      PodLength(l);
    }
    if Located(doc, l).Some? {
      var maps := Located(doc, l).value;
      forall i | 0 <= i < |maps| ensures InItem(maps[i]) && PodVisit(maps[i] + Keys(["name"])) {
        assert maps[i][..5] == l;
        assert (maps[i] + Keys(["name"]))[..5] == l;
      }
    }
  }

  lemma PodLength(l: Loc)
    requires PodItem(l)
    ensures |l| == 5
  {
  }

  predicate AllInItems(cs: seq<MetaContainer>)
  {
    forall i :: 0 <= i < |cs| ==> InItem(cs[i].loc) && cs[i] == PodHandle(cs[i].loc)
  }

  lemma {:induction false} HandlesIn(doc: Json, sel: Selection, wc: WorkloadContainer, ls: seq<Loc>)
    requires IsPodContainer(wc) && forall i :: 0 <= i < |ls| ==> InItem(ls[i])
    ensures AllInItems(Handles(doc, sel, wc, ls))
  {
    hide InItem, NameAt;
    if ls != [] { HandlesIn(doc, sel, wc, ls[1..]); }
  }

  lemma {:induction false} ResultsIn(doc: Json, sel: Selection, wc: WorkloadContainer, ls: seq<Loc>)
    requires IsPodContainer(wc) && forall i :: 0 <= i < |ls| ==> PodItem(ls[i])
    ensures forall l :: l in VisitResults(doc, wc, ls) ==> PodVisit(l)
    ensures FromResults(doc, sel, wc, ls).Some? ==> AllInItems(FromResults(doc, sel, wc, ls).value)
  {
    hide Located, Handles, VisitNames, Along;
    if ls != [] {
      ItemNames(doc, ls[0]);
      assert PodVisit(ls[0]) by { ItemVisited(ls[0]); }
      if Located(doc, ls[0]).Some? { HandlesIn(doc, sel, wc, Located(doc, ls[0]).value); }
      ResultsIn(doc, sel, wc, ls[1..]);
    }
  }

  lemma ItemVisited(l: Loc)
    requires PodItem(l)
    ensures PodVisit(l)
  {
    assert PodPath(CONTAINERS)[..5] == PodPath(CONTAINERS) && PodPath(INIT_CONTAINERS)[..5] == PodPath(INIT_CONTAINERS);
  }

  /** Every handle sits in a container list, and the search stays on the two paths. */
  lemma {:induction false} PathsIn(doc: Json, sel: Selection, wcs: seq<WorkloadContainer>)
    requires forall i :: 0 <= i < |wcs| ==> IsPodContainer(wcs[i])
    ensures forall l :: l in VisitPaths(doc, wcs) ==> PodVisit(l)
    ensures FromPaths(doc, sel, wcs).Some? ==> AllInItems(FromPaths(doc, sel, wcs).value)
  {
    hide Along, Partway, Eval, FromResults, VisitNodes, VisitResults, PodPath;
    if wcs != [] {
      var path := wcs[0].path;
      assert path == PodPath(CONTAINERS) || path == PodPath(INIT_CONTAINERS);
      assert path[0..] == path && AllAlong([[]], path[..0]) by { StartAlong(path); }
      EvalAlong(doc, [[]], path, 0);
      var ls := Eval(doc, [[]], path);
      if ls.Some? {
        assert forall i :: 0 <= i < |ls.value| ==> PodItem(ls.value[i]);
        ResultsIn(doc, sel, wcs[0], ls.value);
      }
      PathsIn(doc, sel, wcs[1..]);
    }
  }

  lemma StartAlong(path: seq<PathNode>)
    ensures AllAlong([[]], path[..0])
  {
  }

  // ---- Their lists ----

  predicate FieldTarget(l: Loc)
  {
    |l| == 6 && PodItem(l[..5]) && (l[5] == Key("env") || l[5] == Key("envFrom") || l[5] == Key("volumeMounts"))
  }

  lemma TargetFields(c: MetaContainer)
    requires PodItem(c.loc) && c == PodHandle(c.loc)
    ensures EnvT(c).loc == c.loc + [Key("env")] && EnvFromT(c).loc == c.loc + [Key("envFrom")]
    ensures MountT(c).loc == c.loc + [Key("volumeMounts")]
    ensures forall t :: t in TargetsOf(c) ==> FieldTarget(t.loc) && t.loc[..5] == c.loc
  {
    PodLength(c.loc);
    assert Keys(["env"]) == [Key("env")] && Keys(["envFrom"]) == [Key("envFrom")];
    assert Keys(["volumeMounts"]) == [Key("volumeMounts")];
    assert (c.loc + [Key("env")])[..5] == c.loc && (c.loc + [Key("envFrom")])[..5] == c.loc;
    assert (c.loc + [Key("volumeMounts")])[..5] == c.loc;
  }

  const POD_SPEC: Loc := [Key("spec"), Key("template"), Key("spec")]

  lemma PodVolumeIs(path: seq<string>)
    requires PodVolume(path)
    ensures Keys(path) == POD_SPEC + [Key(path[3])]
  {
    assert path == ["spec", "template", "spec"] + [path[3]];
    assert path[0] == path[..3][0] && path[1] == path[..3][1] && path[2] == path[..3][2];
  }

  /** Neither the volumes nor a field of a container is ever visited, and they
      lie apart. */
  lemma Unvisited(l: Loc, t: Loc, v: string)
    requires PodVisit(l) && FieldTarget(t) && v != CONTAINERS && v != INIT_CONTAINERS
    ensures var u := POD_SPEC + [Key(v)];
      !(t <= l) && !(u <= l) && !Comparable(u, t)
  {
    var u := POD_SPEC + [Key(v)];
    assert PodPath(CONTAINERS)[3] == Field("containers") && PodPath(INIT_CONTAINERS)[3] == Field("initContainers");
    assert t[..5][3] == t[3] && u[3] == Key(v) && t[3] != u[3];
    if |l| > 3 {
      if |l| > 5 { assert l[..5][3] == l[3]; }
      assert l[3] != u[3];
    }
  }

  /** Containers are found in a pod template, and each is an item of its list. */
  ghost predicate PodSite(doc: Json, sel: Selection)
  {
    PodSelection(sel) && BindablePods(doc, sel).Some? && forall c :: c in SiteOf(doc, sel).cs ==> |c.loc| == 5
  }

  /** What the lists of a site of a pod template are. */
  lemma PodTarget(doc: Json, sel: Selection, t: Target)
    requires PodSite(doc, sel)
    requires t in SiteTargets(SiteOf(doc, sel))
    ensures t == Target(POD_SPEC + [Key(sel.mapping.volume[3])], Volume) ||
      (FieldTarget(t.loc) && Walk(doc, t.loc[..5]).Found? &&
      exists c :: c in SiteOf(doc, sel).cs && c.loc == t.loc[..5] && t in TargetsOf(c))
  {
    hide Along, PodItem, FieldTarget, FromPaths;
    if t == VolumeT(sel) {
      PodVolumeIs(sel.mapping.volume);
    } else {
      var c := Owner(SiteOf(doc, sel).cs, t);
      PathsIn(doc, sel, sel.mapping.containers);
      PodsHold(doc, sel);
      assert c.loc[..5] == c.loc;
      TargetFields(c);
    }
  }

  lemma FieldKind(c: MetaContainer, d: MetaContainer, t: Target, u: Target)
    requires PodItem(c.loc) && c == PodHandle(c.loc) && PodItem(d.loc) && d == PodHandle(d.loc)
    requires t in TargetsOf(c) && u in TargetsOf(d) && Comparable(t.loc, u.loc)
    ensures t == u && c == d
  {
    TargetFields(c);
    TargetFields(d);
    assert t.loc == u.loc && t.loc[5] == u.loc[5];
  }

  /** The lists of two selections are the same or lie apart. */
  lemma PodApart(doc: Json, one: Selection, two: Selection, t: Target, u: Target)
    requires PodSite(doc, one) && PodSite(doc, two)
    requires t in SiteTargets(SiteOf(doc, one)) && u in SiteTargets(SiteOf(doc, two)) && t != u
    ensures !Comparable(t.loc, u.loc)
  {
    hide Along, Partway, FromPaths, BindablePods;
    PodTarget(doc, one, t);
    PodTarget(doc, two, u);
    if FieldTarget(t.loc) && FieldTarget(u.loc) {
      var c :| c in SiteOf(doc, one).cs && c.loc == t.loc[..5] && t in TargetsOf(c);
      var d :| d in SiteOf(doc, two).cs && d.loc == u.loc[..5] && u in TargetsOf(d);
      PodHandles(doc, one, c);
      PodHandles(doc, two, d);
      if Comparable(t.loc, u.loc) { FieldKind(c, d, t, u); }
    } else {
      assert PodVisit([]) by { StartVisited(); }
      if FieldTarget(t.loc) {
        Unvisited([], t.loc, two.mapping.volume[3]);
      } else if FieldTarget(u.loc) {
        Unvisited([], u.loc, one.mapping.volume[3]);
      } else {
        assert t.loc[3] != u.loc[3];
      }
    }
  }

  lemma StartVisited()
    ensures PodVisit([])
  {
    assert Along([], PodPath(CONTAINERS)[..0]);
  }

  lemma PodHandles(doc: Json, sel: Selection, c: MetaContainer)
    requires PodSelection(sel) && BindablePods(doc, sel).Some? && c in SiteOf(doc, sel).cs && |c.loc| == 5
    ensures PodItem(c.loc) && c == PodHandle(c.loc)
  {
    hide Along, PodItem, FromPaths;
    PathsIn(doc, sel, sel.mapping.containers);
    assert c.loc[..5] == c.loc;
  }

  lemma FoundPrefix(doc: Json, l: Loc, p: Loc)
    requires Walk(doc, l).Found? && p <= l
    ensures Walk(doc, p).Found?
  {
    assert l == p + l[|p|..];
    WalkSplit(doc, p, l[|p|..]);
  }

  lemma PutUnder(doc: Json, l: Loc, k: string)
    requires Holds(doc, l)
    ensures CanPut(doc, l + [Key(k)])
  {
    CanPutSplit(doc, l, [Key(k)]);
  }

  lemma PodSpec(doc: Json, c: MetaContainer)
    requires PodItem(c.loc) && Walk(doc, c.loc).Found?
    ensures POD_SPEC <= c.loc && Holds(doc, POD_SPEC)
  {
    var p := c.loc[..3];
    assert p == POD_SPEC;
    assert c.loc == p + c.loc[3..];
    WalkSplit(doc, p, c.loc[3..]);
    assert c.loc[3..][0].Key?;
  }

  /** Every list of the site is a field of a map that is there. */
  lemma PodBase(doc: Json, sel: Selection, t: Target) returns (base: Loc, k: string)
    requires PodSite(doc, sel)
    requires t in SiteTargets(SiteOf(doc, sel))
    ensures t.loc == base + [Key(k)] && Holds(doc, base)
    ensures forall l :: PodVisit(l) ==> !(t.loc <= l)
  {
    hide Along, Partway, FromPaths, PodItem, PodVisit, CanPut, Walk;
    PodTarget(doc, sel, t);
    var c := SiteOf(doc, sel).cs[0];
    var v := sel.mapping.volume[3];
    var volumes := POD_SPEC + [Key(v)];
    if t.loc != volumes {
      c :| c in SiteOf(doc, sel).cs && c.loc == t.loc[..5] && t in TargetsOf(c);
    }
    PodHandles(doc, sel, c);
    PodsHold(doc, sel);
    PodSpec(doc, c);
    TargetFields(c);
    assert FieldTarget(EnvT(c).loc) by { assert EnvT(c) in TargetsOf(c); }
    forall l | PodVisit(l) ensures !(t.loc <= l) {
      if t.loc == volumes { Unvisited(l, EnvT(c).loc, v); } else { Unvisited(l, t.loc, v); }
    }
    base := if t.loc == volumes then POD_SPEC else c.loc;
    k := t.loc[|base|].key;
  }

  /** Editing a list of a site leaves every search for containers alone. */
  lemma PodCalm(doc: Json, sel: Selection, other: Selection, t: Target)
    requires PodSite(doc, sel) && PodSelection(other)
    requires t in SiteTargets(SiteOf(doc, sel))
    ensures Calm(doc, other, t.loc)
    ensures CanPut(doc, t.loc) && t.loc != [] && t.loc[|t.loc| - 1].Key?
  {
    hide FromPaths, BindablePods, PodVisit, CanPut, Walk, SiteTargets, VisitPaths;
    var base, k := PodBase(doc, sel, t);
    PutUnder(doc, base, k);
    PathsIn(doc, other, other.mapping.containers);
    forall l | l in Visited(doc, other) ensures !(t.loc <= l) && (l <= t.loc ==> Walk(doc, l).Found?) {
      if l <= t.loc {
        assert l <= base;
        FoundPrefix(doc, base, l);
      }
    }
  }

  lemma PodCoherent(doc: Json, sel: Selection)
    requires PodSite(doc, sel)
    ensures Coherent(SiteOf(doc, sel).cs)
  {
    hide PodItem, FromPaths, BindablePods, TargetsOf;
    var cs := SiteOf(doc, sel).cs;
    forall c, d | c in cs && d in cs && c != d ensures TargetsOf(c) !! TargetsOf(d) {
      PodHandles(doc, sel, c);
      PodHandles(doc, sel, d);
      forall t | t in TargetsOf(c) ensures t !in TargetsOf(d) {
        if t in TargetsOf(d) { FieldKind(c, d, t, t); }
      }
    }
  }

  /** The containers are items of their lists, and all lists can be read. */
  ghost predicate PodLists(doc: Json, sel: Selection)
  {
    && BindablePods(doc, sel).Some?
    && (forall c :: c in SiteOf(doc, sel).cs ==> |c.loc| == 5 && Readable(ContainerSlots(doc, c)))
    && !Volumes(doc, sel).Bad?
  }

  lemma PodReadable(doc: Json, sel: Selection, t: Target)
    requires PodLists(doc, sel) && t in SiteTargets(SiteOf(doc, sel))
    ensures !Read(doc, t.loc, t.kind).Bad?
  {
    hide BindablePods, Read;
    if t != VolumeT(sel) {
      var c := Owner(SiteOf(doc, sel).cs, t);
      assert Readable(ContainerSlots(doc, c));
    }
  }

  lemma PodTidy(doc: Json, sel: Selection)
    requires PodSelection(sel) && PodLists(doc, sel)
    ensures Tidy(doc, SiteTargets(SiteOf(doc, sel)), {sel})
  {
    hide BindablePods, Calm, Comparable, CanPut, PodSelection, Read, SiteTargets, SiteOf, Volumes, Readable,
      ContainerSlots;
    var ts := SiteTargets(SiteOf(doc, sel));
    forall t, u | t in ts && u in ts && t != u ensures !Comparable(t.loc, u.loc) {
      PodApart(doc, sel, sel, t, u);
    }
    forall t | t in ts
      ensures Calm(doc, sel, t.loc) && t.loc != [] && t.loc[|t.loc| - 1].Key? && Editable(doc, t.loc, t.kind)
    {
      PodCalm(doc, sel, sel, t);
      PodReadable(doc, sel, t);
    }
  }

  /** The lists of a workload with a pod template, whichever of its two
      container lists a selection names and how often: if they can be read,
      all laws of projection apply. */
  lemma PodWorkable(doc: Json, sel: Selection)
    requires PodSelection(sel) && Plain(doc) && PodLists(doc, sel)
    ensures Workable(doc, sel)
  {
    hide Plain, PodSelection, Coherent, Tidy;
    PodTidy(doc, sel);
    PodCoherent(doc, sel);
  }

  // ---- The default mapping ----

  function PodPathText(list: string): string
  {
    ".spec.template.spec." + list + "[*]"
  }

  /** A binding's own containers path that repeats a path of the default mapping. */
  function Repeated(list: string): ContainersPath
  {
    ContainersPath(PodPathText(list), PodPath(list))
  }

  lemma PodContainerConverts(list: string)
    ensures ConvertContainer(PodTemplateContainers(list)) == Some(PodContainer(list))
    ensures ConvertContainer(OwnContainer(list)) == Some(PodContainer(list))
  {
    DottedOk(["name"]);
    DottedOk(["env"]);
    DottedOk(["volumeMounts"]);
  }

  lemma ConvertOneMore(
    cs: seq<ContainerTemplate>, c: ContainerTemplate, ws: seq<WorkloadContainer>, w: WorkloadContainer)
    requires ConvertContainers(cs) == Some(ws) && ConvertContainer(c) == Some(w)
    ensures ConvertContainers(cs + [c]) == Some(ws + [w])
  {
    assert (cs + [c])[..|cs + [c]| - 1] == cs;
  }

  /** The container of a binding's own path. */
  function OwnContainer(list: string): ContainerTemplate
  {
    ContainerTemplate(PodPathText(list), Some(PodPath(list)), UNSET, UNSET, UNSET)
  }

  lemma ThreeConvert(a: ContainerTemplate, b: ContainerTemplate, c: ContainerTemplate,
                     x: WorkloadContainer, y: WorkloadContainer, z: WorkloadContainer)
    requires ConvertContainer(a) == Some(x) && ConvertContainer(b) == Some(y) && ConvertContainer(c) == Some(z)
    ensures ConvertContainers([a, b]) == Some([x, y]) && ConvertContainers([a, b] + [c]) == Some([x, y, z])
  {
    hide ConvertContainer;
    ConvertOneMore([], a, [], x);
    assert [] + [a] == [a] && [] + [x] == [x];
    ConvertOneMore([a], b, [x], y);
    assert [a] + [b] == [a, b] && [x] + [y] == [x, y];
    ConvertOneMore([a, b], c, [x, y], z);
    assert [x, y] + [z] == [x, y, z];
  }

  lemma DefaultExtends(list: string)
    ensures Extended(DEFAULT_TEMPLATE, Some(Repeated(list))) ==
      DEFAULT_TEMPLATE.(containers := DEFAULT_TEMPLATE.containers + [OwnContainer(list)])
  {
    hide Dotted;
    var cs := DEFAULT_TEMPLATE.containers;
    assert |cs[0].text| != |cs[1].text|;
    assert cs[0].text != PodPathText(list) || cs[1].text != PodPathText(list);
  }

  /** Without a mapping for its resource a workload is searched in its pod
      template, and a containers path that repeats one of the two lists adds
      that list once more. */
  lemma DefaultMapping(v: string, list: string)
    ensures ResourceTemplate(None, v, None) ==
      Some(WorkloadMapping([PodContainer(CONTAINERS), PodContainer(INIT_CONTAINERS)], DEFAULT_VOLUMES))
    ensures ResourceTemplate(None, v, Some(Repeated(list))) ==
      Some(WorkloadMapping([PodContainer(CONTAINERS), PodContainer(INIT_CONTAINERS), PodContainer(list)],
        DEFAULT_VOLUMES))
  {
    hide ConvertContainers, PodContainer, Strange, InOrder, Dotted, PodTemplateContainers, OwnContainer, Extended;
    DottedOk(DEFAULT_VOLUMES);
    PodContainerConverts(CONTAINERS);
    PodContainerConverts(INIT_CONTAINERS);
    PodContainerConverts(list);
    DefaultExtends(list);
    ThreeConvert(PodTemplateContainers(CONTAINERS), PodTemplateContainers(INIT_CONTAINERS), OwnContainer(list),
      PodContainer(CONTAINERS), PodContainer(INIT_CONTAINERS), PodContainer(list));
    assert Extended(DEFAULT_TEMPLATE, None) == DEFAULT_TEMPLATE by { NotExtended(); }
  }

  /** A template without containers stands for the two lists of a pod template. */
  lemma EmptyTemplate(m: Option<ResourceMapping>, v: string)
    requires Chosen(m, v).containers == [] && RestrictedOk(Chosen(m, v).volumes)
    ensures var r := ResourceTemplate(m, v, None);
      && r.Some? && |r.value.containers| == 2
      && (forall i :: 0 <= i < 2 ==>
            r.value.containers[i] == WorkloadContainer(
              [Field("spec"), Field("template"), Field("spec"),
               Field(if i == 0 then "containers" else "initContainers"), AllItems],
              ["name"], ["env"], ["envFrom"], ["volumeMounts"]))
  {
    hide ConvertContainers, Strange, InOrder, Dotted, PodTemplateContainers, OwnContainer, Select;
    PodContainerConverts(CONTAINERS);
    PodContainerConverts(INIT_CONTAINERS);
    ThreeConvert(PodTemplateContainers(CONTAINERS), PodTemplateContainers(INIT_CONTAINERS), OwnContainer(CONTAINERS),
      PodContainer(CONTAINERS), PodContainer(INIT_CONTAINERS), PodContainer(CONTAINERS));
    PodContainerConverts(CONTAINERS);
  }

  lemma NotExtended()
    ensures Extended(DEFAULT_TEMPLATE, None) == DEFAULT_TEMPLATE
  {
  }

  lemma {:induction false} NamesOnly(doc: Json, one: Selection, two: Selection, wc: WorkloadContainer, ls: seq<Loc>)
    requires one.names == two.names
    ensures FromResults(doc, one, wc, ls) == FromResults(doc, two, wc, ls)
  {
    if ls != [] {
      NamesOnly(doc, one, two, wc, ls[1..]);
      if Located(doc, ls[0]).Some? { HandlesNames(doc, one, two, wc, Located(doc, ls[0]).value); }
    }
  }

  lemma {:induction false} HandlesNames(doc: Json, one: Selection, two: Selection, wc: WorkloadContainer, ls: seq<Loc>)
    requires one.names == two.names
    ensures Handles(doc, one, wc, ls) == Handles(doc, two, wc, ls)
  {
    if ls != [] { HandlesNames(doc, one, two, wc, ls[1..]); }
  }

  /** What one container path contributes. */
  function FromPath(doc: Json, sel: Selection, wc: WorkloadContainer): Option<seq<MetaContainer>>
  {
    match Eval(doc, [[]], wc.path)
    case None => Some([])
    case Some(ls) => FromResults(doc, sel, wc, ls)
  }

  /** Naming a list once more finds no other containers. */
  lemma RepeatFinds(
    doc: Json, one: Selection, two: Selection, x: WorkloadContainer, y: WorkloadContainer, z: WorkloadContainer)
    requires one.names == two.names && (z == x || z == y)
    requires one.mapping.containers == [x, y] && two.mapping.containers == [x, y, z]
    ensures BindablePods(doc, one).Some? <==> BindablePods(doc, two).Some?
    ensures forall c :: c in SiteOf(doc, one).cs <==> c in SiteOf(doc, two).cs
  {
    hide FromPath, FromPaths;
    PathNames(doc, one, two, x);
    PathNames(doc, one, two, y);
    assert [x, y] == [x] + [y] && [y] == [y] + [] && [z] == [z] + [];
    assert [x, y, z] == [x] + [y, z] && [y, z] == [y] + [z];
    PathsStep(doc, one, x, [y]);
    PathsStep(doc, one, y, []);
    PathsStep(doc, two, x, [y, z]);
    PathsStep(doc, two, y, [z]);
    PathsStep(doc, two, z, []);
    NoPaths(doc, one);
    NoPaths(doc, two);
  }

  lemma NoPaths(doc: Json, sel: Selection)
    ensures FromPaths(doc, sel, []) == Some([])
  {
  }

  lemma PathNames(doc: Json, one: Selection, two: Selection, wc: WorkloadContainer)
    requires one.names == two.names
    ensures FromPath(doc, one, wc) == FromPath(doc, two, wc)
  {
    var ls := Eval(doc, [[]], wc.path);
    if ls.Some? { NamesOnly(doc, one, two, wc, ls.value); }
  }

  lemma PathsStep(doc: Json, sel: Selection, wc: WorkloadContainer, wcs: seq<WorkloadContainer>)
    ensures FromPaths(doc, sel, [wc] + wcs) ==
      if FromPath(doc, sel, wc).None? || FromPaths(doc, sel, wcs).None? then None
      else Some(FromPath(doc, sel, wc).value + FromPaths(doc, sel, wcs).value)
  {
    assert ([wc] + wcs)[1..] == wcs;
  }

  /** A containers path that repeats a list of the default mapping changes
      neither what a projection nor what a removal stores. */
  lemma RepeatedPath(b: Binding, doc: Json, names: set<string>, v: string, list: string, lenient: bool)
    requires list == CONTAINERS || list == INIT_CONTAINERS
    requires Plain(doc)
    ensures ResourceTemplate(None, v, None).Some? && ResourceTemplate(None, v, Some(Repeated(list))).Some?
    ensures var one := Selection(ResourceTemplate(None, v, None).value, names);
      var two := Selection(ResourceTemplate(None, v, Some(Repeated(list))).value, names);
      PodLists(doc, one) && CleanFor(AsEnv, b, doc, one) ==>
        && Bound(b, doc, one, lenient) == Bound(b, doc, two, lenient)
        && (CleanFor(Removal, b, doc, one) ==> Unbound(b, doc, one) == Unbound(b, doc, two))
  {
    hide Plain, BindablePods, CleanFor, Bound, Unbound, ResourceTemplate, Volumes, ContainerSlots, Readable,
      PodContainer;
    DefaultMapping(v, list);
    var one := Selection(ResourceTemplate(None, v, None).value, names);
    var two := Selection(ResourceTemplate(None, v, Some(Repeated(list))).value, names);
    if PodLists(doc, one) && CleanFor(AsEnv, b, doc, one) {
      RepeatFinds(doc, one, two, PodContainer(CONTAINERS), PodContainer(INIT_CONTAINERS), PodContainer(list));
      assert Volumes(doc, one) == Volumes(doc, two) by { SameVolumes(doc, one, two); }
      PodWorkable(doc, one);
      PodWorkable(doc, two);
      MatchedTwice(b, doc, one, two, lenient);
    }
  }

  lemma SameVolumes(doc: Json, one: Selection, two: Selection)
    requires one.mapping.volume == two.mapping.volume
    ensures Volumes(doc, one) == Volumes(doc, two)
  {
  }
}
