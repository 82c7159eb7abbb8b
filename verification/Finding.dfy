/**
 Which containers a selection finds: exactly those behind its paths whose names
 it asks for. JSONPath evaluation is complete unless an empty list cuts it short.
 */
module Finding {

  import opened Documents
  import opened Entries
  import opened Pods
  import opened Projection
  import opened Templates
  import opened Stored
  import opened Standard

  // ---- Names ----

  /** What the field at `path` of an item says, if it is a text. */
  function TextAt(item: Json, path: seq<string>): string
  {
    match Walk(item, Keys(path))
    case Found(Str(s)) => s
    case _ => ""
  }

  /** No names are asked for, or that of the item is among them. */
  predicate Wanted(names: set<string>, item: Json, path: seq<string>)
  {
    names == {} || TextAt(item, path) in names
  }

  lemma NameOf(doc: Json, l: Loc, path: seq<string>)
    requires Walk(doc, l).Found?
    ensures NameAt(doc, l, path) == TextAt(Walk(doc, l).value, path)
  {
    WalkSplit(doc, l, Keys(path));
  }

  // ---- Any mapping ----

  /** A container map that one of the paths leads to and whose name is wanted. */
  ghost predicate Behind(doc: Json, sel: Selection, wc: WorkloadContainer, ls: seq<Loc>, c: MetaContainer)
  {
    && c == MetaContainer(c.loc, wc.env, wc.envFrom, wc.volumeMounts)
    && (exists i :: 0 <= i < |ls| && MapOf(doc, ls[i], c.loc))
    && Wanted(sel.names, Walk(doc, c.loc).value, wc.name)
  }

  /** The map at `l`, or one in the list at `l`. */
  ghost predicate MapOf(doc: Json, l: Loc, m: Loc)
  {
    && Walk(doc, m).Found? && Walk(doc, m).value.Obj?
    && (m == l || (Walk(doc, l).Found? && Walk(doc, l).value.List? && |m| == |l| + 1 && m[..|l|] == l && m[|l|].At?))
  }

  lemma ItemWalk(doc: Json, l: Loc, i: nat)
    requires Walk(doc, l).Found? && Walk(doc, l).value.List?
    ensures Walk(doc, l + [At(i)]) ==
      if i < |Walk(doc, l).value.items| then Found(Walk(doc, l).value.items[i]) else Missing
  {
    WalkSplit(doc, l, [At(i)]);
    assert [At(i)][1..] == [];
  }

  lemma LocatedIs(doc: Json, l: Loc, m: Loc)
    requires Located(doc, l).Some?
    ensures m in Located(doc, l).value <==> MapOf(doc, l, m)
    ensures m in Located(doc, l).value ==> Walk(doc, m).Found?
  {
    var v := Walk(doc, l).value;
    if v.List? {
      forall i: nat { ItemWalk(doc, l, i); }
      if MapOf(doc, l, m) {
        assert m == l + [At(m[|l|].index)];
        assert Elements(l, |v.items|)[m[|l|].index] == m;
      }
      if m in Located(doc, l).value {
        var i :| 0 <= i < |v.items| && Elements(l, |v.items|)[i] == m;
        assert m == l + [At(i)];
      }
    }
  }

  lemma {:induction false} HandlesAre(doc: Json, sel: Selection, wc: WorkloadContainer, ls: seq<Loc>, c: MetaContainer)
    requires forall i :: 0 <= i < |ls| ==> Walk(doc, ls[i]).Found?
    ensures c in Handles(doc, sel, wc, ls) <==>
      c == MetaContainer(c.loc, wc.env, wc.envFrom, wc.volumeMounts) && c.loc in ls &&
      Wanted(sel.names, Walk(doc, c.loc).value, wc.name)
  {
    hide Walk, TextAt;
    if ls != [] {
      NameOf(doc, ls[0], wc.name);
      HandlesAre(doc, sel, wc, ls[1..], c);
    }
  }

  lemma {:induction false} ResultsAre(doc: Json, sel: Selection, wc: WorkloadContainer, ls: seq<Loc>, c: MetaContainer)
    requires FromResults(doc, sel, wc, ls).Some?
    ensures c in FromResults(doc, sel, wc, ls).value <==> Behind(doc, sel, wc, ls, c)
  {
    hide Walk, Located, Wanted, Handles, MapOf;
    if ls != [] {
      ResultsAre(doc, sel, wc, ls[1..], c);
      var maps := Located(doc, ls[0]).value;
      forall m | m in maps ensures Walk(doc, m).Found? { LocatedIs(doc, ls[0], m); }
      LocatedIs(doc, ls[0], c.loc);
      HandlesAre(doc, sel, wc, maps, c);
      if Behind(doc, sel, wc, ls, c) {
        var i :| 0 <= i < |ls| && MapOf(doc, ls[i], c.loc);
        assert i > 0 ==> ls[1..][i - 1] == ls[i];
      }
      if Behind(doc, sel, wc, ls[1..], c) {
        var i :| 0 <= i < |ls[1..]| && MapOf(doc, ls[1..][i], c.loc);
        assert ls[i + 1] == ls[1..][i];
      }
    }
  }

  /** A container of one of the paths that can be evaluated. */
  ghost predicate LedTo(doc: Json, sel: Selection, wcs: seq<WorkloadContainer>, c: MetaContainer)
  {
    exists i :: 0 <= i < |wcs| && LedToBy(doc, sel, wcs[i], c)
  }

  ghost predicate LedToBy(doc: Json, sel: Selection, wc: WorkloadContainer, c: MetaContainer)
  {
    Eval(doc, [[]], wc.path).Some? && Behind(doc, sel, wc, Eval(doc, [[]], wc.path).value, c)
  }

  lemma {:induction false} PathsAre(doc: Json, sel: Selection, wcs: seq<WorkloadContainer>, c: MetaContainer)
    requires FromPaths(doc, sel, wcs).Some?
    ensures c in FromPaths(doc, sel, wcs).value <==> LedTo(doc, sel, wcs, c)
  {
    hide Eval, FromResults, Behind;
    if wcs != [] {
      PathsAre(doc, sel, wcs[1..], c);
      var ls := Eval(doc, [[]], wcs[0].path);
      if ls.Some? { ResultsAre(doc, sel, wcs[0], ls.value, c); }
      if i :| 0 <= i < |wcs| && LedToBy(doc, sel, wcs[i], c) { assert i > 0 ==> wcs[1..][i - 1] == wcs[i]; }
      if i :| 0 <= i < |wcs[1..]| && LedToBy(doc, sel, wcs[1..][i], c) { assert wcs[i + 1] == wcs[1..][i]; }
    }
  }

  /** A result is a map, or a list with nothing but maps. */
  ghost predicate Suitable(doc: Json, l: Loc)
  {
    && Walk(doc, l).Found?
    && (Walk(doc, l).value.Obj? ||
        (Walk(doc, l).value.List? && !Walk(doc, l).value.typed &&
         forall j: nat :: Walk(doc, l + [At(j)]).Found? ==> Walk(doc, l + [At(j)]).value.Obj?))
  }

  ghost predicate AllSuitable(doc: Json, wcs: seq<WorkloadContainer>)
  {
    forall i, l :: 0 <= i < |wcs| && Eval(doc, [[]], wcs[i].path).Some? && l in Eval(doc, [[]], wcs[i].path).value ==>
      Suitable(doc, l)
  }

  lemma LocatedSuitable(doc: Json, l: Loc)
    ensures Located(doc, l).Some? <==> Suitable(doc, l)
  {
    if Walk(doc, l).Found? && Walk(doc, l).value.List? {
      var items := Walk(doc, l).value.items;
      forall j: nat { ItemWalk(doc, l, j); }
      if Suitable(doc, l) {
        forall j: nat | j < |items| ensures items[j].Obj? { assert Walk(doc, l + [At(j)]) == Found(items[j]); }
      }
    }
  }

  lemma {:induction false} ResultsSome(doc: Json, sel: Selection, wc: WorkloadContainer, ls: seq<Loc>)
    ensures FromResults(doc, sel, wc, ls).Some? <==> forall l :: l in ls ==> Suitable(doc, l)
  {
    hide Walk, Located, Suitable, Handles;
    if ls != [] {
      LocatedSuitable(doc, ls[0]);
      ResultsSome(doc, sel, wc, ls[1..]);
    }
  }

  lemma {:induction false} PathsSome(doc: Json, sel: Selection, wcs: seq<WorkloadContainer>)
    ensures FromPaths(doc, sel, wcs).Some? <==> AllSuitable(doc, wcs)
  {
    hide Eval, FromResults, Suitable;
    if wcs != [] {
      PathsSome(doc, sel, wcs[1..]);
      var ls := Eval(doc, [[]], wcs[0].path);
      if ls.Some? { ResultsSome(doc, sel, wcs[0], ls.value); }
      if AllSuitable(doc, wcs[1..]) {
        forall i, l | 0 < i < |wcs| && Eval(doc, [[]], wcs[i].path).Some? && l in Eval(doc, [[]], wcs[i].path).value
          ensures Suitable(doc, l)
        {
          assert wcs[1..][i - 1] == wcs[i];
        }
      }
      if AllSuitable(doc, wcs) {
        forall i, l | 0 <= i < |wcs[1..]| && Eval(doc, [[]], wcs[1..][i].path).Some? &&
            l in Eval(doc, [[]], wcs[1..][i].path).value
          ensures Suitable(doc, l)
        {
          assert wcs[i + 1] == wcs[1..][i];
        }
      }
    }
  }

  /** A selection finds exactly the maps behind its paths that have a wanted
      name, with the field paths of the mapping entry that led to them. It finds
      nothing if there are none, or if a path leads to anything but maps. */
  lemma FindsExactly(doc: Json, sel: Selection)
    ensures var wcs := sel.mapping.containers;
      && (BindablePods(doc, sel).Some? <==> AllSuitable(doc, wcs) && exists c :: LedTo(doc, sel, wcs, c))
      && forall c :: BindablePods(doc, sel).Some? ==>
           (c in BindablePods(doc, sel).value <==> LedTo(doc, sel, wcs, c))
  {
    hide Eval, FromPaths, LedTo, AllSuitable;
    var wcs := sel.mapping.containers;
    PathsSome(doc, sel, wcs);
    var r := FromPaths(doc, sel, wcs);
    if r.Some? {
      forall c ensures c in r.value <==> LedTo(doc, sel, wcs, c) { PathsAre(doc, sel, wcs, c); }
      if r.value != [] { assert r.value[0] in r.value; }
    }
  }

  // ---- JSONPath ----

  /** A `[*]` of the path meets an empty list, or a nil one, on the way. */
  ghost predicate CutShort(doc: Json, nodes: seq<PathNode>)
  {
    exists q: Loc :: |q| < |nodes| && Along(q, nodes[..|q|]) && nodes[|q|].AllItems? && EmptyAt(doc, q)
  }

  predicate EmptyAt(doc: Json, q: Loc)
  {
    match Walk(doc, q)
    case Found(Nil) => true
    case Found(List(items, _)) => items == []
    case _ => false
  }

  lemma {:induction false} FieldsAre(doc: Json, ins: seq<Loc>, n: string, l: Loc)
    ensures l in FieldsOf(doc, ins, n) <==>
      |l| > 0 && l[|l| - 1] == Key(n) && l[..|l| - 1] in ins && Walk(doc, l).Found?
  {
    hide Walk;
    if ins != [] {
      FieldsAre(doc, ins[1..], n, l);
      if |l| > 0 && l[|l| - 1] == Key(n) && l[..|l| - 1] == ins[0] { assert l == ins[0] + [Key(n)]; }
      var k := ins[0] + [Key(n)];
      assert k[|k| - 1] == Key(n) && k[..|k| - 1] == ins[0];
    }
  }

  lemma {:induction false} ItemsAre(doc: Json, ins: seq<Loc>, l: Loc)
    requires EvalItems(doc, ins).Some? && forall i :: 0 <= i < |ins| ==> !EmptyAt(doc, ins[i])
    ensures l in EvalItems(doc, ins).value <==>
      |l| > 0 && l[|l| - 1].At? && l[..|l| - 1] in ins && Walk(doc, l).Found?
  {
    hide Walk;
    if ins != [] {
      assert !EmptyAt(doc, ins[0]);
      ItemsAre(doc, ins[1..], l);
      ItemsOfOne(doc, ins[0], l);
    }
  }

  lemma ItemsOfOne(doc: Json, q: Loc, l: Loc)
    requires Walk(doc, q).Found? && (Walk(doc, q).value.Null? || Walk(doc, q).value.List?)
    ensures |l| > 0 && l[|l| - 1].At? && l[..|l| - 1] == q && Walk(doc, l).Found? <==>
      Walk(doc, q).value.List? && l in Elements(q, |Walk(doc, q).value.items|)
  {
    hide Walk;
    var v := Walk(doc, q).value;
    if |l| > 0 && l[|l| - 1].At? && l[..|l| - 1] == q {
      var i := l[|l| - 1].index;
      assert l == q + [At(i)];
      if v.List? {
        ItemWalk(doc, q, i);
        if i < |v.items| { assert Elements(q, |v.items|)[i] == l; }
      } else {
        NullWalk(doc, q, i);
      }
    }
    if v.List? && l in Elements(q, |v.items|) {
      var i :| 0 <= i < |v.items| && Elements(q, |v.items|)[i] == l;
      assert l == q + [At(i)];
      ItemWalk(doc, q, i);
    }
  }

  lemma NullWalk(doc: Json, q: Loc, i: nat)
    requires Walk(doc, q) == Found(Null)
    ensures !Walk(doc, q + [At(i)]).Found?
  {
    WalkSplit(doc, q, [At(i)]);
  }

  lemma LastStep(l: Loc, nodes: seq<PathNode>, k: nat)
    requires k < |nodes|
    ensures Along(l, nodes[..k + 1]) <==>
      |l| == k + 1 && Along(l[..k], nodes[..k]) && Suits(l[k], nodes[k])
  {
  }

  lemma FoundAbove(doc: Json, l: Loc)
    requires |l| > 0 && Walk(doc, l).Found?
    ensures Walk(doc, l[..|l| - 1]).Found?
  {
    assert l == l[..|l| - 1] + [l[|l| - 1]];
    WalkSplit(doc, l[..|l| - 1], [l[|l| - 1]]);
  }

  /** `ins` are all locations of the document along the nodes. */
  ghost predicate AllThere(doc: Json, ins: seq<Loc>, nodes: seq<PathNode>)
  {
    forall l: Loc :: l in ins <==> Along(l, nodes) && Walk(doc, l).Found?
  }

  lemma NodeThere(doc: Json, ins: seq<Loc>, nodes: seq<PathNode>, k: nat)
    requires k < |nodes| && AllThere(doc, ins, nodes[..k]) && !CutShort(doc, nodes)
    requires EvalNode(doc, ins, nodes[k]).Some?
    ensures AllThere(doc, EvalNode(doc, ins, nodes[k]).value, nodes[..k + 1])
  {
    hide Walk, FieldsOf, EvalItems, EmptyAt, Along;
    forall l: Loc
      ensures l in EvalNode(doc, ins, nodes[k]).value <==> Along(l, nodes[..k + 1]) && Walk(doc, l).Found?
    {
      LastStep(l, nodes, k);
      if |l| > 0 && Walk(doc, l).Found? { FoundAbove(doc, l); }
      if nodes[k].Field? {
        FieldsAre(doc, ins, nodes[k].name, l);
        assert |l| > 0 && l[..|l| - 1] in ins ==> |l| == k + 1 by { AlongLength(ins, doc, nodes[..k]); }
      } else {
        forall i | 0 <= i < |ins| ensures !EmptyAt(doc, ins[i]) {
          AlongLength(ins, doc, nodes[..k]);
          assert ins[i] in ins && nodes[..|ins[i]|] == nodes[..k];
        }
        ItemsAre(doc, ins, l);
        assert |l| > 0 && l[..|l| - 1] in ins ==> |l| == k + 1 by { AlongLength(ins, doc, nodes[..k]); }
      }
    }
  }

  lemma AlongLength(ins: seq<Loc>, doc: Json, nodes: seq<PathNode>)
    requires AllThere(doc, ins, nodes)
    ensures forall l :: l in ins ==> |l| == |nodes|
  {
  }

  lemma {:induction false} EvalFrom(doc: Json, ins: seq<Loc>, nodes: seq<PathNode>, k: nat)
    requires k <= |nodes| && AllThere(doc, ins, nodes[..k]) && !CutShort(doc, nodes)
    requires Eval(doc, ins, nodes[k..]).Some?
    ensures AllThere(doc, Eval(doc, ins, nodes[k..]).value, nodes)
    decreases |nodes| - k
  {
    hide EvalNode, AllThere, CutShort;
    if k == |nodes| {
      assert nodes[..k] == nodes;
    } else {
      assert nodes[k..][0] == nodes[k] && nodes[k..][1..] == nodes[k + 1..];
      NodeThere(doc, ins, nodes, k);
      EvalFrom(doc, EvalNode(doc, ins, nodes[k]).value, nodes, k + 1);
    }
  }

  /** Without empty lists on the way, the result of a path is exactly what the
      document has along it. */
  lemma EvalComplete(doc: Json, path: seq<PathNode>, l: Loc)
    requires Eval(doc, [[]], path).Some? && !CutShort(doc, path)
    ensures l in Eval(doc, [[]], path).value <==> Along(l, path) && Walk(doc, l).Found?
  {
    hide Eval, CutShort;
    assert path[0..] == path && path[..0] == [];
    forall m: Loc ensures m in [[]] <==> Along(m, []) && Walk(doc, m).Found? { assert Along(m, []) ==> m == []; }
    EvalFrom(doc, [[]], path, 0);
  }

  lemma CutWalks(x: Json, n: string)
    ensures var first := Obj(map[n := List([], false)]);
      var second := Obj(map[n := List([x], false)]);
      var doc := List([first, second], false);
      && Walk(doc, []) == Found(doc)
      && Walk(doc, [At(0), Key(n)]) == Found(List([], false)) && Walk(doc, [At(1), Key(n)]) == Found(List([x], false))
  {
    var a, b := [At(0), Key(n)], [At(1), Key(n)];
    assert a[1..] == [Key(n)] && b[1..] == [Key(n)] && [Key(n)][1..] == [];
    var first, second := Obj(map[n := List([], false)]), Obj(map[n := List([x], false)]);
    var doc := List([first, second], false);
    assert Walk(doc, a) == Walk(first, [Key(n)]) == Found(List([], false));
    assert Walk(doc, b) == Walk(second, [Key(n)]) == Found(List([x], false));
  }

  /** An empty list cuts the evaluation short: the items of the lists after it
      are not found. */
  lemma EmptyListCuts(x: Json, n: string)
    ensures var first := Obj(map[n := List([], false)]);
      var second := Obj(map[n := List([x], false)]);
      var doc := List([first, second], false);
      && Walk(doc, [At(1), Key(n), At(0)]) == Found(x)
      && Eval(doc, [[]], [AllItems, Field(n), AllItems]) == Some([])
  {
    hide Walk;
    var first, second := Obj(map[n := List([], false)]), Obj(map[n := List([x], false)]);
    var doc := List([first, second], false);
    var p := [AllItems, Field(n), AllItems];
    var ls: seq<Loc> := [[At(0)], [At(1)]];
    var start: seq<Loc> := [[]];
    CutWalks(x, n);
    assert start[1..] == [];
    var es := Elements([], 2);
    assert |es| == 2 && es[0] == [] + [At(0)] == [At(0)] && es[1] == [] + [At(1)] == [At(1)];
    assert es == ls && es + [] == ls;
    assert EvalItems(doc, []) == Some([]);
    assert EvalNode(doc, [[]], AllItems) == Some(ls);
    var a, b := [At(0), Key(n)], [At(1), Key(n)];
    assert [At(0)] + [Key(n)] == a && [At(1)] + [Key(n)] == b;
    assert ls[1..] == [[At(1)]] && ls[1..][1..] == [] && [b] + [] == [b] && [a] + [b] == [a, b];
    assert FieldsOf(doc, ls[1..], n) == [b];
    assert FieldsOf(doc, ls, n) == [a, b];
    assert EvalNode(doc, [a, b], AllItems) == Some([]);
    assert p[1..] == [Field(n), AllItems] && p[1..][1..] == [AllItems] && [AllItems][1..] == [];
    assert Eval(doc, [], []) == Some([]);
    assert Eval(doc, [a, b], [AllItems]) == Some([]);
    assert Eval(doc, ls, p[1..]) == Some([]);
    var q: Loc := [At(1), Key(n), At(0)];
    assert q == b + [At(0)];
    ItemWalk(doc, b, 0);
  }

  // ---- Deployments ----

  lemma OneField(doc: Json, l: Loc, n: string, rest: seq<PathNode>)
    ensures Eval(doc, [l], [Field(n)] + rest) ==
      if Walk(doc, l + [Key(n)]).Found? then Eval(doc, [l + [Key(n)]], rest) else None
  {
    assert ([Field(n)] + rest)[1..] == rest && [l][1..] == [];
    var found := if Walk(doc, l + [Key(n)]).Found? then [l + [Key(n)]] else [];
    assert found + [] == found;
    assert FieldsOf(doc, [l], n) == found;
  }

  lemma AllOfList(doc: Json, l: Loc, items: seq<Json>)
    requires Walk(doc, l) == Found(List(items, false))
    ensures Eval(doc, [l], [AllItems]) == Some(Elements(l, |items|))
  {
    assert [AllItems][1..] == [] && [l][1..] == [];
    assert Elements(l, |items|) + [] == Elements(l, |items|);
    assert EvalItems(doc, [l]) == Some(Elements(l, |items|));
    assert Eval(doc, Elements(l, |items|), []) == Some(Elements(l, |items|));
  }

  /** Evaluating a path of the default mapping: the items of the list, or an
      error when there is no such list. */
  lemma PodEval(doc: Json, list: string)
    requires Walk(doc, POD_SPEC).Found?
    ensures var l := POD_SPEC + [Key(list)];
      && (!Walk(doc, l).Found? ==> Eval(doc, [[]], PodPath(list)) == None)
      && (Walk(doc, l).Found? && Walk(doc, l).value.List? && !Walk(doc, l).value.typed ==>
            Eval(doc, [[]], PodPath(list)) == Some(Elements(l, |Walk(doc, l).value.items|)))
  {
    hide Walk, Eval, Elements;
    var p := PodPath(list);
    FoundPrefix(doc, POD_SPEC, [Key("spec")]);
    FoundPrefix(doc, POD_SPEC, [Key("spec"), Key("template")]);
    assert p == [Field("spec")] + p[1..] && p[1..] == [Field("template")] + p[2..];
    assert p[2..] == [Field("spec")] + p[3..] && p[3..] == [Field(list)] + [AllItems];
    OneField(doc, [], "spec", p[1..]);
    OneField(doc, [Key("spec")], "template", p[2..]);
    OneField(doc, [Key("spec"), Key("template")], "spec", p[3..]);
    assert [] + [Key("spec")] == [Key("spec")] && [Key("spec")] + [Key("template")] == [Key("spec"), Key("template")];
    assert [Key("spec"), Key("template")] + [Key("spec")] == POD_SPEC;
    OneField(doc, POD_SPEC, list, [AllItems]);
    var l := POD_SPEC + [Key(list)];
    if Walk(doc, l).Found? && Walk(doc, l).value.List? && !Walk(doc, l).value.typed {
      AllOfList(doc, l, Walk(doc, l).value.items);
    }
  }

  /** The handles of the items of a list in a pod spec that have a wanted name, in order. */
  function WantedItems(names: set<string>, l: Loc, items: seq<Json>, i: nat): seq<MetaContainer>
    requires i <= |items|
    decreases |items| - i
  {
    if i == |items| then []
    else
      (if Wanted(names, items[i], ["name"])
       then [MetaContainer(l + [At(i)], ["env"], ["envFrom"], ["volumeMounts"])] else [])
      + WantedItems(names, l, items, i + 1)
  }

  lemma {:induction false} AllWanted(l: Loc, items: seq<Json>, i: nat)
    requires i <= |items|
    ensures |WantedItems({}, l, items, i)| == |items| - i
    ensures forall j :: 0 <= j < |items| - i ==>
      WantedItems({}, l, items, i)[j] == MetaContainer(l + [At(i + j)], ["env"], ["envFrom"], ["volumeMounts"])
    decreases |items| - i
  {
    if i < |items| { AllWanted(l, items, i + 1); }
  }

  lemma {:induction false} WantedAre(names: set<string>, l: Loc, items: seq<Json>, i: nat, c: MetaContainer)
    requires i <= |items|
    ensures c in WantedItems(names, l, items, i) <==> exists j: nat :: i <= j && WantedAt(names, l, items, j, c)
    decreases |items| - i
  {
    hide WantedAt;
    if i < |items| {
      WantedAre(names, l, items, i + 1, c);
      WantedHead(names, l, items, i, c);
    } else {
      forall j: nat | i <= j ensures !WantedAt(names, l, items, j, c) { WantedRange(names, l, items, j, c); }
    }
  }

  /** The item is wanted, and `c` is its handle. */
  predicate WantedAt(names: set<string>, l: Loc, items: seq<Json>, j: nat, c: MetaContainer)
  {
    && j < |items| && Wanted(names, items[j], ["name"])
    && c == MetaContainer(l + [At(j)], ["env"], ["envFrom"], ["volumeMounts"])
  }

  lemma WantedRange(names: set<string>, l: Loc, items: seq<Json>, j: nat, c: MetaContainer)
    ensures WantedAt(names, l, items, j, c) ==> j < |items|
  {
  }

  lemma WantedHead(names: set<string>, l: Loc, items: seq<Json>, i: nat, c: MetaContainer)
    requires i < |items|
    ensures c in WantedItems(names, l, items, i) <==>
      WantedAt(names, l, items, i, c) || c in WantedItems(names, l, items, i + 1)
  {
    hide Wanted;
  }

  /** Maps are their own containers, if they have a wanted name. */
  lemma {:induction false} MapsAreContainers(doc: Json, sel: Selection, list: string, l: Loc, items: seq<Json>, i: nat)
    requires Walk(doc, l) == Found(List(items, false)) && forall j :: 0 <= j < |items| ==> items[j].Obj?
    requires i <= |items|
    ensures FromResults(doc, sel, PodContainer(list), Elements(l, |items|)[i..]) ==
      Some(WantedItems(sel.names, l, items, i))
    decreases |items| - i
  {
    hide Walk, Wanted, TextAt;
    var ls := Elements(l, |items|);
    if i < |items| {
      MapsAreContainers(doc, sel, list, l, items, i + 1);
      assert ls[i..][0] == ls[i] == l + [At(i)] && ls[i..][1..] == ls[i + 1..];
      ItemWalk(doc, l, i);
      OneHandle(doc, sel, list, ls[i], items[i]);
    }
  }

  lemma OneHandle(doc: Json, sel: Selection, list: string, l: Loc, item: Json)
    requires Walk(doc, l) == Found(item) && item.Obj?
    ensures Located(doc, l) == Some([l])
    ensures Handles(doc, sel, PodContainer(list), [l]) ==
      if Wanted(sel.names, item, ["name"]) then [MetaContainer(l, ["env"], ["envFrom"], ["volumeMounts"])] else []
  {
    hide Walk;
    NameOf(doc, l, ["name"]);
    assert [l][1..] == [];
  }

  /** The maps of a list in the pod spec. */
  ghost predicate MapList(doc: Json, list: string)
  {
    var v := Walk(doc, POD_SPEC + [Key(list)]);
    v.Found? && v.value.List? && !v.value.typed && forall i :: 0 <= i < |v.value.items| ==> v.value.items[i].Obj?
  }

  /** The containers of a list in the pod spec that have a wanted name. */
  ghost function ListHandles(doc: Json, list: string, names: set<string>): seq<MetaContainer>
  {
    if MapList(doc, list)
    then WantedItems(names, POD_SPEC + [Key(list)], Walk(doc, POD_SPEC + [Key(list)]).value.items, 0) else []
  }

  lemma ListFound(doc: Json, sel: Selection, list: string)
    requires Walk(doc, POD_SPEC).Found?
    requires MapList(doc, list) || !Walk(doc, POD_SPEC + [Key(list)]).Found?
    ensures FromPath(doc, sel, PodContainer(list)) == Some(ListHandles(doc, list, sel.names))
  {
    hide Walk, Eval, FromResults, WantedItems, Elements;
    PodEval(doc, list);
    if MapList(doc, list) {
      var l := POD_SPEC + [Key(list)];
      var items := Walk(doc, l).value.items;
      MapsAreContainers(doc, sel, list, l, items, 0);
      assert Elements(l, |items|)[0..] == Elements(l, |items|);
    }
  }

  /** Without a mapping, a selection finds the items of the container lists of
      a pod template, containers first, that have a wanted name, and nothing if
      there are none. */
  lemma DefaultFinds(doc: Json, sel: Selection, version: string)
    requires ResourceTemplate(None, version, None) == Some(sel.mapping) && Walk(doc, POD_SPEC).Found?
    requires MapList(doc, "containers") || !Walk(doc, POD_SPEC + [Key("containers")]).Found?
    requires MapList(doc, "initContainers") || !Walk(doc, POD_SPEC + [Key("initContainers")]).Found?
    ensures var cs := ListHandles(doc, "containers", sel.names) + ListHandles(doc, "initContainers", sel.names);
      && BindablePods(doc, sel) == (if cs == [] then None else Some(cs))
      && (cs != [] ==> PodSite(doc, sel))
  {
    hide Walk, FromPath, MapList, ListHandles, PodContainer, ResourceTemplate;
    DefaultMapping(version, CONTAINERS);
    var x, y := PodContainer(CONTAINERS), PodContainer(INIT_CONTAINERS);
    ListFound(doc, sel, CONTAINERS);
    ListFound(doc, sel, INIT_CONTAINERS);
    assert [x, y] == [x] + [y] && [y] == [y] + [];
    PathsStep(doc, sel, x, [y]);
    PathsStep(doc, sel, y, []);
    NoPaths(doc, sel);
    var init := ListHandles(doc, INIT_CONTAINERS, sel.names);
    assert init + [] == init;
    forall c | c in ListHandles(doc, CONTAINERS, sel.names) + init ensures |c.loc| == 5 {
      var list := if c in ListHandles(doc, CONTAINERS, sel.names) then CONTAINERS else INIT_CONTAINERS;
      HandleLength(doc, list, sel.names, c);
    }
  }

  lemma HandleLength(doc: Json, list: string, names: set<string>, c: MetaContainer)
    requires c in ListHandles(doc, list, names)
    ensures |c.loc| == 5
  {
    hide Wanted, Walk;
    var l := POD_SPEC + [Key(list)];
    WantedAre(names, l, Walk(doc, l).value.items, 0, c);
    var j: nat :| WantedAt(names, l, Walk(doc, l).value.items, j, c);
  }
}
