/**
 How an application's mapping locates the containers of a workload
 (`application.BindablePods`), and why edits elsewhere do not move them.
 */
module Pods {

  import opened Documents

  datatype Option<T> = None | Some(value: T)

  /** JSONPath of a container list: field access and `[*]`. */
  datatype PathNode = Field(name: string) | AllItems

  datatype WorkloadContainer = WorkloadContainer(
    path: seq<PathNode>, name: seq<string>, env: seq<string>, envFrom: seq<string>, volumeMounts: seq<string>)

  datatype WorkloadMapping = WorkloadMapping(containers: seq<WorkloadContainer>, volume: seq<string>)

  /** What an application knows about itself: its mapping and the container
      names it is restricted to (none means all). */
  datatype Selection = Selection(mapping: WorkloadMapping, names: set<string>)

  /** A handle on a container: where its map sits, and its field paths. */
  datatype MetaContainer = MetaContainer(loc: Loc, env: seq<string>, envFrom: seq<string>, volumeMount: seq<string>)

  // ---- JSONPath evaluation ----

  function FieldsOf(doc: Json, ins: seq<Loc>, n: string): seq<Loc>
  {
    if ins == [] then []
    else
      (if Walk(doc, ins[0] + [Key(n)]).Found? then [ins[0] + [Key(n)]] else []) + FieldsOf(doc, ins[1..], n)
  }

  /** `evalField`: a missing key is an error only when no input has it. */
  function EvalField(doc: Json, ins: seq<Loc>, n: string): Option<seq<Loc>>
  {
    var outs := FieldsOf(doc, ins, n);
    if ins != [] && outs == [] then None else Some(outs)
  }

  function Elements(l: Loc, n: nat): seq<Loc>
  {
    seq(n, i requires 0 <= i < n => l + [At(i)])
  }

  /** `evalArray` for `[*]`: nulls are skipped, and the first empty list ends
      the evaluation with what was found before it. */
  function EvalItems(doc: Json, ins: seq<Loc>): Option<seq<Loc>>
  {
    if ins == [] then Some([])
    else match Walk(doc, ins[0])
      case Found(Null) => EvalItems(doc, ins[1..])
      case Found(Nil) => Some([])
      case Found(List(items, _)) =>
        if items == [] then Some([])
        else
          var rest := EvalItems(doc, ins[1..]);
          if rest.None? then None else Some(Elements(ins[0], |items|) + rest.value)
      case _ => None
  }

  function EvalNode(doc: Json, ins: seq<Loc>, node: PathNode): Option<seq<Loc>>
  {
    match node
    case Field(n) => EvalField(doc, ins, n)
    case AllItems => EvalItems(doc, ins)
  }

  function Eval(doc: Json, ins: seq<Loc>, nodes: seq<PathNode>): Option<seq<Loc>>
    decreases |nodes|
  {
    if nodes == [] then Some(ins)
    else match EvalNode(doc, ins, nodes[0])
      case None => None
      case Some(outs) => Eval(doc, outs, nodes[1..])
  }

  // ---- BindablePods ----

  /** The container maps behind one JSONPath result: the map itself, or the
      elements of a `[]interface{}` of maps; anything else is an error. */
  function Located(doc: Json, l: Loc): Option<seq<Loc>>
  {
    match Walk(doc, l)
    case Found(Obj(_)) => Some([l])
    case Found(List(items, typed)) =>
      if !typed && forall i :: 0 <= i < |items| ==> items[i].Obj? then Some(Elements(l, |items|)) else None
    case _ => None
  }

  function NameAt(doc: Json, l: Loc, path: seq<string>): string
  {
    match Walk(doc, l + Keys(path))
    case Found(Str(s)) => s
    case _ => ""
  }

  /** The handles for located maps, restricted by container name. */
  function Handles(doc: Json, sel: Selection, wc: WorkloadContainer, ls: seq<Loc>): seq<MetaContainer>
  {
    if ls == [] then []
    else
      (if sel.names == {} || NameAt(doc, ls[0], wc.name) in sel.names
       then [MetaContainer(ls[0], wc.env, wc.envFrom, wc.volumeMounts)] else [])
      + Handles(doc, sel, wc, ls[1..])
  }

  function FromResults(doc: Json, sel: Selection, wc: WorkloadContainer, ls: seq<Loc>): Option<seq<MetaContainer>>
  {
    if ls == [] then Some([])
    else match Located(doc, ls[0])
      case None => None
      case Some(maps) =>
        var rest := FromResults(doc, sel, wc, ls[1..]);
        if rest.None? then None else Some(Handles(doc, sel, wc, maps) + rest.value)
  }

  /** The handles of all container paths; a path that cannot be evaluated is skipped. */
  function FromPaths(doc: Json, sel: Selection, wcs: seq<WorkloadContainer>): Option<seq<MetaContainer>>
  {
    if wcs == [] then Some([])
    else
      var here := match Eval(doc, [[]], wcs[0].path)
        case None => Some([])
        case Some(ls) => FromResults(doc, sel, wcs[0], ls);
      if here.None? then None
      else
        var rest := FromPaths(doc, sel, wcs[1..]);
        if rest.None? then None else Some(here.value + rest.value)
  }

  /** None stands for the error of BindablePods. */
  function BindablePods(doc: Json, sel: Selection): Option<seq<MetaContainer>>
  {
    var r := FromPaths(doc, sel, sel.mapping.containers);
    if r.Some? && r.value == [] then None else r
  }

  // ---- What the search depends on ----

  datatype Shape = Nowhere | Nothing | Nihil | Text(s: string) | Other | Items(kinds: seq<bool>, typed: bool) | Map

  /** All that the search ever observes of a location. */
  function ShapeAt(doc: Json, l: Loc): Shape
  {
    match Walk(doc, l)
    case Found(Null) => Nothing
    case Found(Nil) => Nihil
    case Found(Str(s)) => Text(s)
    case Found(Scalar(_)) => Other
    case Found(List(items, typed)) => Items(seq(|items|, i requires 0 <= i < |items| => items[i].Obj?), typed)
    case Found(Obj(_)) => Map
    case _ => Nowhere
  }

  function VisitNode(ins: seq<Loc>, node: PathNode): set<Loc>
  {
    match node
    case Field(n) => set l | l in ins :: l + [Key(n)]
    case AllItems => set l | l in ins
  }

  function VisitNodes(doc: Json, ins: seq<Loc>, nodes: seq<PathNode>): set<Loc>
    decreases |nodes|
  {
    if nodes == [] then {}
    else
      var outs := EvalNode(doc, ins, nodes[0]);
      VisitNode(ins, nodes[0]) + (if outs.None? then {} else VisitNodes(doc, outs.value, nodes[1..]))
  }

  function VisitNames(ls: seq<Loc>, name: seq<string>): set<Loc>
  {
    set l | l in ls :: l + Keys(name)
  }

  function VisitResults(doc: Json, wc: WorkloadContainer, ls: seq<Loc>): set<Loc>
  {
    if ls == [] then {}
    else
      var maps := Located(doc, ls[0]);
      {ls[0]} + VisitResults(doc, wc, ls[1..]) + (if maps.None? then {} else VisitNames(maps.value, wc.name))
  }

  function VisitPaths(doc: Json, wcs: seq<WorkloadContainer>): set<Loc>
  {
    if wcs == [] then {}
    else
      var ls := Eval(doc, [[]], wcs[0].path);
      VisitNodes(doc, [[]], wcs[0].path) + VisitPaths(doc, wcs[1..])
      + (if ls.None? then {} else VisitResults(doc, wcs[0], ls.value))
  }

  /** Every location the search for containers looks at, found or not. */
  function Visited(doc: Json, sel: Selection): set<Loc>
  {
    VisitPaths(doc, sel.mapping.containers)
  }

  predicate Alike(doc: Json, d: Json, ls: set<Loc>)
  {
    forall l :: l in ls ==> ShapeAt(d, l) == ShapeAt(doc, l)
  }

  lemma FoundAlike(doc: Json, d: Json, l: Loc)
    ensures ShapeAt(d, l) == ShapeAt(doc, l) ==> (Walk(d, l).Found? <==> Walk(doc, l).Found?)
  {
  }

  lemma {:induction false} FieldsAlike(doc: Json, d: Json, ins: seq<Loc>, n: string)
    requires Alike(doc, d, VisitNode(ins, Field(n)))
    ensures FieldsOf(d, ins, n) == FieldsOf(doc, ins, n)
  {
    hide ShapeAt;
    if ins != [] {
      FoundAlike(doc, d, ins[0] + [Key(n)]);
      assert ins[0] + [Key(n)] in VisitNode(ins, Field(n));
      assert VisitNode(ins[1..], Field(n)) <= VisitNode(ins, Field(n));
      FieldsAlike(doc, d, ins[1..], n);
    }
  }

  lemma {:induction false} ItemsAlike(doc: Json, d: Json, ins: seq<Loc>)
    requires Alike(doc, d, VisitNode(ins, AllItems))
    ensures EvalItems(d, ins) == EvalItems(doc, ins)
  {
    if ins != [] {
      assert ins[0] in VisitNode(ins, AllItems);
      assert ShapeAt(d, ins[0]) == ShapeAt(doc, ins[0]);
      if Walk(d, ins[0]).Found? && Walk(d, ins[0]).value.List? {
        assert |ShapeAt(d, ins[0]).kinds| == |ShapeAt(doc, ins[0]).kinds|;
      }
      assert VisitNode(ins[1..], AllItems) <= VisitNode(ins, AllItems);
      ItemsAlike(doc, d, ins[1..]);
    }
  }

  lemma {:induction false} EvalAlike(doc: Json, d: Json, ins: seq<Loc>, nodes: seq<PathNode>)
    requires Alike(doc, d, VisitNodes(doc, ins, nodes))
    ensures Eval(d, ins, nodes) == Eval(doc, ins, nodes)
    ensures VisitNodes(d, ins, nodes) == VisitNodes(doc, ins, nodes)
    decreases |nodes|
  {
    if nodes != [] {
      assert Alike(doc, d, VisitNode(ins, nodes[0]));
      match nodes[0] {
        case Field(n) => FieldsAlike(doc, d, ins, n);
        case AllItems => ItemsAlike(doc, d, ins);
      }
      var outs := EvalNode(doc, ins, nodes[0]);
      if outs.Some? { EvalAlike(doc, d, outs.value, nodes[1..]); }
    }
  }

  lemma {:induction false} HandlesAlike(doc: Json, d: Json, sel: Selection, wc: WorkloadContainer, ls: seq<Loc>)
    requires Alike(doc, d, VisitNames(ls, wc.name))
    ensures Handles(d, sel, wc, ls) == Handles(doc, sel, wc, ls)
  {
    if ls != [] {
      assert ls[0] + Keys(wc.name) in VisitNames(ls, wc.name);
      assert VisitNames(ls[1..], wc.name) <= VisitNames(ls, wc.name);
      HandlesAlike(doc, d, sel, wc, ls[1..]);
    }
  }

  lemma LocatedAlike(doc: Json, d: Json, l: Loc)
    requires ShapeAt(d, l) == ShapeAt(doc, l)
    ensures Located(d, l) == Located(doc, l)
  {
    if ShapeAt(d, l).Items? {
      var xs, ys := Walk(d, l).value.items, Walk(doc, l).value.items;
      assert |ShapeAt(d, l).kinds| == |xs| && |ShapeAt(doc, l).kinds| == |ys|;
      assert forall i :: 0 <= i < |xs| ==> (xs[i].Obj? <==> ShapeAt(d, l).kinds[i]);
      assert forall i :: 0 <= i < |ys| ==> (ys[i].Obj? <==> ShapeAt(doc, l).kinds[i]);
    }
  }

  lemma {:induction false} ResultsAlike(doc: Json, d: Json, sel: Selection, wc: WorkloadContainer, ls: seq<Loc>)
    requires Alike(doc, d, VisitResults(doc, wc, ls))
    ensures FromResults(d, sel, wc, ls) == FromResults(doc, sel, wc, ls)
    ensures VisitResults(d, wc, ls) == VisitResults(doc, wc, ls)
  {
    if ls != [] {
      LocatedAlike(doc, d, ls[0]);
      var maps := Located(doc, ls[0]);
      if maps.Some? { HandlesAlike(doc, d, sel, wc, maps.value); }
      ResultsAlike(doc, d, sel, wc, ls[1..]);
    }
  }

  lemma {:induction false} PathsAlike(doc: Json, d: Json, sel: Selection, wcs: seq<WorkloadContainer>)
    requires Alike(doc, d, VisitPaths(doc, wcs))
    ensures FromPaths(d, sel, wcs) == FromPaths(doc, sel, wcs)
    ensures VisitPaths(d, wcs) == VisitPaths(doc, wcs)
  {
    hide Eval, EvalNode, FromResults, VisitResults, VisitNodes, ShapeAt;
    if wcs != [] {
      EvalAlike(doc, d, [[]], wcs[0].path);
      var ls := Eval(doc, [[]], wcs[0].path);
      if ls.Some? { ResultsAlike(doc, d, sel, wcs[0], ls.value); }
      PathsAlike(doc, d, sel, wcs[1..]);
    }
  }

  /** A document that looks the same wherever the search looks has the same
      containers, and the search looks at the same places. */
  lemma PodsAlike(doc: Json, d: Json, sel: Selection)
    requires Alike(doc, d, Visited(doc, sel))
    ensures BindablePods(d, sel) == BindablePods(doc, sel)
    ensures Visited(d, sel) == Visited(doc, sel)
  {
    PathsAlike(doc, d, sel, sel.mapping.containers);
  }

  /** Editing a list at `t` leaves the search alone: nothing it visits lies at
      or under `t`, and nothing it misses lies on the way to `t`. */
  predicate Calm(doc: Json, sel: Selection, t: Loc)
  {
    forall l :: l in Visited(doc, sel) ==> !(t <= l) && (l <= t ==> Walk(doc, l).Found?)
  }

  lemma ShapeRoot(doc: Json, t: Loc, x: Json)
    requires CanPut(doc, t) && t != [] && t[|t| - 1].Key?
    ensures ShapeAt(Put(doc, t, x), []) == ShapeAt(doc, [])
  {
    if t[0].At? {
      var i := t[0].index;
      assert |t| > 1 && t[1..] != [];
      assert doc.items[i].Obj? <==> Put(doc.items[i], t[1..], x).Obj?;
    }
  }

  lemma ShapeUnder(v: Json, l: Loc)
    ensures l != [] && l[0].Key? && v.Obj? && l[0].key in v.fields ==>
      ShapeAt(v, l) == ShapeAt(v.fields[l[0].key], l[1..])
    ensures l != [] && l[0].At? && v.List? && l[0].index < |v.items| ==>
      ShapeAt(v, l) == ShapeAt(v.items[l[0].index], l[1..])
  {
  }

  lemma {:induction false} ShapeAbove(doc: Json, t: Loc, x: Json, l: Loc)
    requires CanPut(doc, t) && l <= t && l != t && Walk(doc, l).Found?
    requires t[|t| - 1].Key?
    ensures ShapeAt(Put(doc, t, x), l) == ShapeAt(doc, l)
    decreases |t|
  {
    hide ShapeAt;
    if l == [] {
      ShapeRoot(doc, t, x);
    } else {
      ComparableTail(l, t);
      ShapeUnder(doc, l);
      ShapeUnder(Put(doc, t, x), l);
      match t[0]
      case Key(k) => ShapeAbove(doc.fields[k], t[1..], x, l[1..]);
      case At(i) => ShapeAbove(doc.items[i], t[1..], x, l[1..]);
    }
  }

  lemma ShapeKept(doc: Json, t: Loc, x: Json, l: Loc)
    requires CanPut(doc, t) && t != [] && t[|t| - 1].Key?
    requires !(t <= l) && (l <= t ==> Walk(doc, l).Found?)
    ensures ShapeAt(Put(doc, t, x), l) == ShapeAt(doc, l)
  {
    if l <= t {
      ShapeAbove(doc, t, x, l);
    } else {
      PutOther(doc, t, x, l);
    }
  }

  /** An edit at a calm location does not move the containers. */
  lemma PutSteady(doc: Json, t: Loc, x: Json, sel: Selection)
    requires CanPut(doc, t) && t != [] && t[|t| - 1].Key? && Calm(doc, sel, t)
    ensures Alike(doc, Put(doc, t, x), Visited(doc, sel))
  {
    hide Visited, ShapeAt, Put;
    var ls := Visited(doc, sel);
    forall l | l in ls ensures ShapeAt(Put(doc, t, x), l) == ShapeAt(doc, l) {
      ShapeKept(doc, t, x, l);
    }
  }

  lemma ShapeNorm(doc: Json, d: Json, l: Loc)
    requires Plain(doc) && ShapeAt(d, l) == ShapeAt(doc, l)
    ensures ShapeAt(Norm(d), l) == ShapeAt(doc, l)
  {
    WalkNorm(d, l);
    WalkNorm(doc, l);
    if ShapeAt(d, l).Items? {
      assert Norm(Walk(doc, l).value) == Walk(doc, l).value;
      assert !Walk(doc, l).value.typed;
      var xs := Walk(d, l).value.items;
      assert forall i :: 0 <= i < |xs| ==> (Norm(xs[i]).Obj? <==> xs[i].Obj?);
      assert ShapeAt(Norm(d), l).kinds == ShapeAt(d, l).kinds;
    }
  }

  /** Nor does the write-back, when the document looks like a stored one. */
  lemma NormSteady(doc: Json, d: Json, sel: Selection)
    requires Plain(doc) && Alike(doc, d, Visited(doc, sel))
    ensures Alike(doc, Norm(d), Visited(doc, sel))
  {
    hide Visited, ShapeAt, Norm, Plain;
    forall l | l in Visited(doc, sel) ensures ShapeAt(Norm(d), l) == ShapeAt(doc, l) {
      ShapeNorm(doc, d, l);
    }
  }
}
