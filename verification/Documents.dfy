/**
 The unstructured Kubernetes document: a JSON tree, locations in it, and the
 lookup and in-place write that the operator performs through nested Go maps.
 A location plays the part of a Go reference into the tree: two handles alias
 exactly when their locations agree.
 */
module Documents {

  /** A JSON value as Go holds it. A list is either a `[]interface{}` or, when
      `typed`, the `[]map[string]interface{}` that the operator itself writes.
      `Nil` is such a slice that is nil. The write-back sends it as null, which
      the cluster drops; the stored document keeps it as a mark of the field
      that was dropped, and reads it as absent. */
  datatype Json =
    | Null
    | Nil
    | Str(text: string)
    | Scalar(repr: string)
    | List(items: seq<Json>, typed: bool)
    | Obj(fields: map<string, Json>)

  datatype Step = Key(key: string) | At(index: nat)

  type Loc = seq<Step>

  datatype Lookup = Found(value: Json) | Missing | Failed

  const EMPTY: Json := Obj(map[])

  function Keys(path: seq<string>): (p: Loc)
    ensures |p| == |path|
  {
    seq(|path|, i requires 0 <= i < |path| => Key(path[i]))
  }

  /** `unstructured.NestedFieldNoCopy`, extended to list positions: a null on
      the way means "missing", any other non-map is an access error. */
  function Walk(v: Json, p: Loc): Lookup
    decreases |p|
  {
    if p == [] then Found(v)
    else match p[0]
      case Key(k) =>
        if v.Null? then Missing
        else if v.Obj? then
          if k in v.fields then Walk(v.fields[k], p[1..]) else Missing
        else Failed
      case At(i) =>
        if v.List? && i < |v.items| then Walk(v.items[i], p[1..]) else Missing
  }

  /** The value under a key, or the empty map a write would create there. */
  function Under(fields: map<string, Json>, k: string): Json
  {
    if k in fields then fields[k] else EMPTY
  }

  /** A write at `p` goes through: everything present on the way is a map
      (or a list holding the position); what is absent can be created. */
  predicate CanPut(v: Json, p: Loc)
    decreases |p|
  {
    p == [] ||
    match p[0]
    case Key(k) => v.Obj? && CanPut(Under(v.fields, k), p[1..])
    case At(i) => v.List? && i < |v.items| && CanPut(v.items[i], p[1..])
  }

  /** The tree with `x` at `p`, absent maps on the way created. */
  function Put(v: Json, p: Loc, x: Json): Json
    decreases |p|
  {
    if p == [] then x
    else match p[0]
      case Key(k) =>
        if v.Obj? then Obj(v.fields[k := Put(Under(v.fields, k), p[1..], x)]) else v
      case At(i) =>
        if v.List? && i < |v.items| then List(v.items[i := Put(v.items[i], p[1..], x)], v.typed) else v
  }

  predicate Comparable(p: Loc, q: Loc)
  {
    p <= q || q <= p
  }

  lemma ComparableTail(p: Loc, q: Loc)
    requires p != [] && q != [] && p[0] == q[0]
    ensures p <= q <==> p[1..] <= q[1..]
    ensures Comparable(p, q) <==> Comparable(p[1..], q[1..])
  {
    assert p == [p[0]] + p[1..] && q == [q[0]] + q[1..];
  }

  /** A lookup through a handle continues the lookup of the handle. */
  lemma {:induction false} WalkSplit(v: Json, p: Loc, q: Loc)
    ensures Walk(v, p + q) == if Walk(v, p).Found? then Walk(Walk(v, p).value, q) else Walk(v, p)
    decreases |p|
  {
    if p == [] {
      assert p + q == q;
    } else {
      assert (p + q)[1..] == p[1..] + q;
      match p[0]
      case Key(k) => if v.Obj? && k in v.fields { WalkSplit(v.fields[k], p[1..], q); }
      case At(i) => if v.List? && i < |v.items| { WalkSplit(v.items[i], p[1..], q); }
    }
  }

  /** A lookup cannot go on from a value: at a key without a map that has it, or
      at a position without a list that has it. */
  predicate Blocks(w: Json, s: Step)
  {
    match s
    case Key(k) => !(w.Obj? && k in w.fields)
    case At(i) => !(w.List? && i < |w.items|)
  }

  /** A lookup fails, or finds nothing, at the first value that it cannot pass:
      an access error exactly where a key meets something that is neither a map
      nor null. */
  lemma {:induction false} WalkEnds(v: Json, p: Loc) returns (n: nat)
    ensures n <= |p| && Walk(v, p[..n]).Found? && (Walk(v, p).Found? <==> n == |p|)
    ensures n < |p| ==>
      var w := Walk(v, p[..n]).value;
      Blocks(w, p[n]) && (Walk(v, p).Failed? <==> p[n].Key? && !w.Obj? && !w.Null?)
    decreases |p|
  {
    if p == [] || Blocks(v, p[0]) {
      n := 0;
      assert p[..0] == [];
    } else {
      var w := if p[0].Key? then v.fields[p[0].key] else v.items[p[0].index];
      var m := WalkEnds(w, p[1..]);
      n := m + 1;
      assert p[..n][1..] == p[1..][..m] && p[..n][0] == p[0];
    }
  }

  /** What a write needs of the value at a prefix of its location. */
  predicate Passable(r: Lookup, s: Step)
  {
    match r
    case Found(w) => if s.Key? then w.Obj? else w.List? && s.index < |w.items|
    case Missing => s.Key?
    case Failed => false
  }

  /** On the way every value that is there is a map, or a list with the
      position, and only keys are missing. */
  ghost predicate OpenWay(v: Json, p: Loc)
  {
    forall n: nat :: n < |p| ==> Passable(Walk(v, p[..n]), p[n])
  }

  lemma PassableTail(v: Json, p: Loc, w: Json, n: nat)
    requires 0 < n < |p| && Passable(Found(v), p[0])
    requires w == if p[0].Key? then Under(v.fields, p[0].key) else v.items[p[0].index]
    ensures Passable(Walk(v, p[..n]), p[n]) <==> Passable(Walk(w, p[1..][..n - 1]), p[1..][n - 1])
  {
    assert p[..n][1..] == p[1..][..n - 1] && p[..n][0] == p[0] && p[1..][n - 1] == p[n];
    if p[0].Key? && p[0].key !in v.fields && n > 1 { assert Walk(EMPTY, p[1..][..n - 1]) == Missing; }
  }

  lemma OpenTail(v: Json, p: Loc, w: Json)
    requires p != [] && Passable(Found(v), p[0])
    requires w == if p[0].Key? then Under(v.fields, p[0].key) else v.items[p[0].index]
    ensures OpenWay(v, p) <==> OpenWay(w, p[1..])
  {
    hide Walk, Passable;
    forall n: nat | 0 < n < |p|
      ensures Passable(Walk(v, p[..n]), p[n]) <==> Passable(Walk(w, p[1..][..n - 1]), p[1..][n - 1])
    {
      PassableTail(v, p, w, n);
    }
    if OpenWay(v, p) {
      forall n: nat | n < |p[1..]| ensures Passable(Walk(w, p[1..][..n]), p[1..][n]) {
        assert Passable(Walk(v, p[..n + 1]), p[n + 1]);
      }
    }
    if OpenWay(w, p[1..]) {
      OpenStart(v, p);
      forall n: nat | 0 < n < |p| ensures Passable(Walk(v, p[..n]), p[n]) {
        assert Passable(Walk(w, p[1..][..n - 1]), p[1..][n - 1]);
      }
    }
  }

  lemma OpenStart(v: Json, p: Loc)
    ensures Walk(v, p[..0]) == Found(v)
  {
  }

  /** A write goes through exactly if the way is open. */
  lemma {:induction false} CanPutIff(v: Json, p: Loc)
    ensures CanPut(v, p) <==> OpenWay(v, p)
    decreases |p|
  {
    hide OpenWay;
    if p == [] {
      NoWay(v);
    } else if Passable(Found(v), p[0]) {
      var w := if p[0].Key? then Under(v.fields, p[0].key) else v.items[p[0].index];
      CanPutIff(w, p[1..]);
      OpenTail(v, p, w);
    } else {
      ClosedWay(v, p);
    }
  }

  lemma NoWay(v: Json)
    ensures OpenWay(v, [])
  {
  }

  lemma ClosedWay(v: Json, p: Loc)
    requires p != [] && !Passable(Found(v), p[0])
    ensures !OpenWay(v, p)
  {
    assert Walk(v, p[..0]) == Found(v);
  }

  // ---- Lens laws ----

  lemma {:induction false} PutGet(v: Json, p: Loc, x: Json)
    requires CanPut(v, p)
    ensures Walk(Put(v, p, x), p) == Found(x)
    decreases |p|
  {
    if p != [] {
      match p[0]
      case Key(k) => PutGet(Under(v.fields, k), p[1..], x);
      case At(i) => PutGet(v.items[i], p[1..], x);
    }
  }

  lemma {:induction false} PutOther(v: Json, p: Loc, x: Json, q: Loc)
    requires CanPut(v, p) && !Comparable(p, q)
    ensures Walk(Put(v, p, x), q) == Walk(v, q)
    decreases |p|
  {
    if p[0] == q[0] {
      ComparableTail(p, q);
      match p[0]
      case Key(k) =>
        PutOther(Under(v.fields, k), p[1..], x, q[1..]);
      case At(i) => PutOther(v.items[i], p[1..], x, q[1..]);
    }
  }

  lemma {:induction false} PutPut(v: Json, p: Loc, x: Json, y: Json)
    requires CanPut(v, p)
    ensures CanPut(Put(v, p, x), p)
    ensures Put(Put(v, p, x), p, y) == Put(v, p, y)
    decreases |p|
  {
    if p != [] {
      match p[0]
      case Key(k) => PutPut(Under(v.fields, k), p[1..], x, y);
      case At(i) => PutPut(v.items[i], p[1..], x, y);
    }
  }

  lemma {:induction false} GetPut(v: Json, p: Loc)
    requires Walk(v, p).Found?
    ensures CanPut(v, p) && Put(v, p, Walk(v, p).value) == v
    decreases |p|
  {
    if p != [] {
      match p[0]
      case Key(k) => GetPut(v.fields[k], p[1..]);
      case At(i) => GetPut(v.items[i], p[1..]);
    }
  }

  lemma {:induction false} CanPutOther(v: Json, p: Loc, x: Json, q: Loc)
    requires CanPut(v, p) && !Comparable(p, q)
    ensures CanPut(Put(v, p, x), q) <==> CanPut(v, q)
    decreases |p|
  {
    if p[0] == q[0] {
      ComparableTail(p, q);
      match p[0]
      case Key(k) => CanPutOther(Under(v.fields, k), p[1..], x, q[1..]);
      case At(i) => CanPutOther(v.items[i], p[1..], x, q[1..]);
    }
  }

  // ---- Write-back: every list becomes a `[]interface{}` again ----

  /** The clone that Close sends to the cluster. */
  function Norm(v: Json): Json
  {
    match v
    case List(items, _) => List(seq(|items|, i requires 0 <= i < |items| => Norm(items[i])), false)
    case Obj(fields) => Obj(map k | k in fields :: Norm(fields[k]))
    case _ => v
  }

  /** A document as the cluster stores it. */
  predicate Plain(v: Json)
  {
    Norm(v) == v
  }

  lemma {:induction false} NormPlain(v: Json)
    ensures Plain(Norm(v))
  {
    match v
    case List(items, _) =>
      forall i | 0 <= i < |items| { NormPlain(items[i]); }
    case Obj(fields) =>
      forall k | k in fields { NormPlain(fields[k]); }
    case _ =>
  }

  lemma PlainObj(fields: map<string, Json>)
    requires forall k | k in fields :: Plain(fields[k])
    ensures Plain(Obj(fields))
  {
  }

  function NormLookup(r: Lookup): Lookup
  {
    if r.Found? then Found(Norm(r.value)) else r
  }

  lemma {:induction false} WalkNorm(v: Json, p: Loc)
    ensures Walk(Norm(v), p) == NormLookup(Walk(v, p))
    ensures CanPut(Norm(v), p) <==> CanPut(v, p)
    decreases |p|
  {
    if p != [] {
      match p[0]
      case Key(k) => if v.Obj? { WalkNorm(Under(v.fields, k), p[1..]); }
      case At(i) => if v.List? && i < |v.items| { WalkNorm(v.items[i], p[1..]); }
    }
  }

  ghost predicate Apart(q: Loc, ts: set<Loc>)
  {
    forall t :: t in ts ==> !Comparable(q, t)
  }

  /** Two documents agree at every location of `ts`, all present, and at
      every location incomparable with `ts`. */
  ghost predicate AgreeOn(d: Json, e: Json, ts: set<Loc>)
  {
    && (forall t :: t in ts ==> Walk(d, t).Found? && Walk(d, t) == Walk(e, t))
    && (forall q: Loc :: Apart(q, ts) ==> Walk(d, q) == Walk(e, q))
  }

  /** Stored documents that agree in this way are the same document. */
  lemma {:induction false} Cover(d: Json, e: Json, ts: set<Loc>)
    requires Plain(d) && Plain(e) && AgreeOn(d, e, ts)
    ensures d == e
    decreases d
  {
    if ts == {} {
      assert Apart([], ts);
      assert Walk(d, []) == Walk(e, []);
    } else if [] in ts {
      assert Walk(d, []) == Walk(e, []);
    } else {
      var t: Loc :| t in ts;
      assert Walk(d, t) == Walk(e, t);
      if t[0].Key? {
        forall k | k in d.fields || k in e.fields
          ensures k in d.fields && k in e.fields && d.fields[k] == e.fields[k]
        {
          CoverChild(d, e, ts, Key(k));
        }
      } else {
        var m, n := |d.items|, |e.items|;
        if m != n {
          CoverChild(d, e, ts, At(if m < n then m else n));
        }
        forall i: nat | i < n ensures d.items[i] == e.items[i] {
          CoverChild(d, e, ts, At(i));
        }
      }
    }
  }

  /** The locations of `ts` below a first step. */
  function Below(ts: set<Loc>, s: Step): set<Loc>
    requires [] !in ts
  {
    set t | t in ts && t[0] == s :: t[1..]
  }

  lemma BelowIs(ts: set<Loc>, s: Step, u: Loc)
    requires [] !in ts
    ensures u in Below(ts, s) <==> [s] + u in ts
  {
    if u in Below(ts, s) {
      var t: Loc :| t in ts && t[0] == s && t[1..] == u;
      assert t == [s] + u;
    }
    if [s] + u in ts {
      assert ([s] + u)[1..] == u;
    }
  }

  lemma ApartBelow(ts: set<Loc>, s: Step, q: Loc)
    requires [] !in ts && Apart(q, Below(ts, s)) && (q != [] || Below(ts, s) == {})
    ensures Apart([s] + q, ts)
  {
    forall t | t in ts ensures !Comparable([s] + q, t) {
      if t[0] == s {
        assert t[1..] in Below(ts, s);
        assert ([s] + q)[1..] == q;
        ComparableTail([s] + q, t);
      }
    }
  }

  lemma {:induction false} CoverChild(d: Json, e: Json, ts: set<Loc>, s: Step)
    requires Plain(d) && Plain(e) && [] !in ts && AgreeOn(d, e, ts)
    requires Walk(d, [s]).Found? || Walk(e, [s]).Found?
    ensures Walk(d, [s]) == Walk(e, [s])
    decreases d, 0
  {
    var below := Below(ts, s);
    if below == {} {
      ApartBelow(ts, s, []);
      assert [s] + [] == [s];
    } else {
      var u: Loc :| u in below;
      BelowIs(ts, s, u);
      WalkSplit(d, [s], u);
      WalkSplit(e, [s], u);
      var d', e' := Walk(d, [s]).value, Walk(e, [s]).value;
      AgreeBelow(d, e, ts, s, d', e');
      Cover(d', e', below);
    }
  }

  lemma AgreeBelow(d: Json, e: Json, ts: set<Loc>, s: Step, d': Json, e': Json)
    requires [] !in ts && AgreeOn(d, e, ts) && Below(ts, s) != {}
    requires Walk(d, [s]) == Found(d') && Walk(e, [s]) == Found(e')
    ensures AgreeOn(d', e', Below(ts, s))
  {
    forall t | t in Below(ts, s) ensures Walk(d', t).Found? && Walk(d', t) == Walk(e', t) {
      BelowIs(ts, s, t);
      WalkSplit(d, [s], t);
      WalkSplit(e, [s], t);
    }
    forall q: Loc | Apart(q, Below(ts, s)) ensures Walk(d', q) == Walk(e', q) {
      assert q != [] by { var u :| u in Below(ts, s); assert !Comparable(q, u); }
      ApartBelow(ts, s, q);
      WalkSplit(d, [s], q);
      WalkSplit(e, [s], q);
    }
  }
}
