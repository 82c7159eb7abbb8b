/**
 Fields that the cluster drops. A nil list is sent as null and its field is
 dropped, but the model keeps a mark in its place. Nothing that the operator
 does depends on the mark: passes over a marked workload and over the workload
 without the field store the same, up to marks.
 */
module Marks {

  import opened Sequences
  import opened Documents
  import opened Entries
  import opened Pods
  import opened Views
  import opened Projection
  import opened Slots
  import opened Laws
  import opened Stored
  import opened Theorems
  import Applications

  /** The document that the cluster really holds. */
  function Pruned(v: Json): Json
  {
    match v
    case List(items, typed) => List(seq(|items|, i requires 0 <= i < |items| => Pruned(items[i])), typed)
    case Obj(fields) => Obj(map k | k in fields && !fields[k].Nil? :: Pruned(fields[k]))
    case _ => v
  }

  /** Marks stand only where lists of `ts` are. */
  ghost predicate MarkedAt(v: Json, ts: set<Target>)
  {
    forall q: Loc :: Walk(v, q) == Found(Nil) ==> exists t :: t in ts && t.loc == q
  }

  lemma {:induction false} PrunedPlain(v: Json)
    ensures Norm(Pruned(v)) == Pruned(Norm(v))
  {
    match v
    case List(items, _) =>
      forall i | 0 <= i < |items| ensures Norm(Pruned(items[i])) == Pruned(Norm(items[i])) { PrunedPlain(items[i]); }
    case Obj(fields) =>
      forall k | k in fields ensures Norm(Pruned(fields[k])) == Pruned(Norm(fields[k])) { PrunedPlain(fields[k]); }
      assert forall k | k in fields :: Norm(fields[k]).Nil? <==> fields[k].Nil?;
    case _ =>
  }

  /** Pruning takes nothing away but marks. */
  lemma {:induction false} PrunedFound(v: Json, p: Loc)
    requires !v.Nil?
    ensures Walk(v, p).Found? && !Walk(v, p).value.Nil? ==> Walk(Pruned(v), p) == Found(Pruned(Walk(v, p).value))
    ensures Walk(v, p) == Found(Nil) && p != [] && p[|p| - 1].Key? ==> Walk(Pruned(v), p) == Missing
    ensures Walk(v, p).Missing? ==> Walk(Pruned(v), p).Missing?
    ensures CanPut(v, p) ==> CanPut(Pruned(v), p)
    decreases |p|
  {
    if p != [] {
      match p[0]
      case Key(k) =>
        if v.Obj? && k in v.fields {
          if !v.fields[k].Nil? {
            PrunedFound(v.fields[k], p[1..]);
            if p[1..] != [] { assert p[1..][|p[1..]| - 1] == p[|p| - 1]; }
          } else {
            assert k !in Pruned(v).fields;
            assert p[1..] != [] ==> !CanPut(Nil, p[1..]);
            assert CanPut(v, p) ==> CanPut(Nil, p[1..]);
          }
        } else if v.Obj? {
          PrunedFound(EMPTY, p[1..]);
          assert Pruned(EMPTY) == EMPTY;
        }
      case At(i) =>
        if v.List? && i < |v.items| && !v.items[i].Nil? {
          PrunedFound(v.items[i], p[1..]);
          if p[1..] != [] { assert p[1..][|p[1..]| - 1] == p[|p| - 1]; }
        }
    }
  }

  /** A value without marks is not pruned. */
  lemma {:induction false} NoMarks(v: Json)
    requires forall q: Loc :: Walk(v, q) != Found(Nil)
    ensures Pruned(v) == v
  {
    match v
    case List(items, _) =>
      forall i | 0 <= i < |items| ensures Pruned(items[i]) == items[i] {
        forall q: Loc ensures Walk(items[i], q) != Found(Nil) {
          assert Walk(v, [At(i)] + q) == Walk(items[i], q) by { assert ([At(i)] + q)[1..] == q; }
        }
        NoMarks(items[i]);
      }
    case Obj(fields) =>
      forall k | k in fields ensures !fields[k].Nil? && Pruned(fields[k]) == fields[k] {
        forall q: Loc ensures Walk(fields[k], q) != Found(Nil) {
          assert Walk(v, [Key(k)] + q) == Walk(fields[k], q) by { assert ([Key(k)] + q)[1..] == q; }
        }
        assert Walk(fields[k], []) != Found(Nil);
        NoMarks(fields[k]);
      }
    case _ =>
  }

  /** Where no mark is near, pruning changes nothing. */
  lemma PrunedElsewhere(v: Json, ts: set<Target>, q: Loc)
    requires !v.Nil? && MarkedAt(v, ts) && Elsewhere(v, ts, q)
    ensures Walk(Pruned(v), q) == Walk(v, q)
  {
    hide Pruned;
    PrunedFound(v, q);
    if Walk(v, q).Found? {
      var w := Walk(v, q).value;
      forall r: Loc ensures Walk(w, r) != Found(Nil) {
        WalkSplit(v, q, r);
        NoMarkNear(v, ts, q, q + r);
      }
      assert Walk(w, []) != Found(Nil);
      NoMarks(w);
    } else if Walk(v, q).Failed? {
      forall r: Loc | r <= q ensures Walk(v, r) != Found(Nil) { NoMarkNear(v, ts, q, r); }
      PrunedFailed(v, q);
    }
  }

  lemma NoMarkNear(v: Json, ts: set<Target>, q: Loc, r: Loc)
    requires MarkedAt(v, ts) && Elsewhere(v, ts, q) && (q <= r || r <= q)
    ensures Walk(v, r) != Found(Nil)
  {
  }

  lemma {:induction false} PrunedFailed(v: Json, q: Loc)
    requires !v.Nil? && Walk(v, q).Failed?
    requires forall r: Loc :: r <= q ==> Walk(v, r) != Found(Nil)
    ensures Walk(Pruned(v), q).Failed?
    decreases |q|
  {
    if q[0].Key? && v.Obj? {
      var w := v.fields[q[0].key];
      forall r: Loc | r <= q[1..] ensures Walk(w, r) != Found(Nil) {
        var s := [q[0]] + r;
        assert s <= q && s[1..] == r && Walk(v, s) == Walk(w, r);
      }
      assert Walk(w, []) != Found(Nil);
      PrunedFailed(w, q[1..]);
    } else if q[0].At? {
      var w := v.items[q[0].index];
      forall r: Loc | r <= q[1..] ensures Walk(w, r) != Found(Nil) {
        var s := [q[0]] + r;
        assert s <= q && s[1..] == r && Walk(v, s) == Walk(w, r);
      }
      assert Walk(w, []) != Found(Nil);
      PrunedFailed(w, q[1..]);
    }
  }

  // ---- The pruned workload is the one before the marks ----

  lemma PrunedShape(v: Json, l: Loc)
    requires !v.Nil? && forall r: Loc :: r <= l ==> Walk(v, r) != Found(Nil)
    ensures ShapeAt(Pruned(v), l) == ShapeAt(v, l)
  {
    PrunedFound(v, l);
    if Walk(v, l).Failed? { PrunedFailed(v, l); }
    if Walk(v, l).Found? {
      assert Walk(v, l) != Found(Nil);
      var w := Walk(v, l).value;
      if w.List? {
        assert forall i :: 0 <= i < |w.items| ==> (Pruned(w.items[i]).Obj? <==> w.items[i].Obj?);
        assert ShapeAt(Pruned(v), l).kinds == ShapeAt(v, l).kinds;
      }
    }
  }

  /** A mark lies at a list, hence not at or above a place that the search visits. */
  lemma PrunedAlike(v: Json, ts: set<Target>, sels: set<Selection>, sel: Selection)
    requires !v.Nil? && MarkedAt(v, ts) && Tidy(v, ts, sels) && sel in sels
    ensures Alike(v, Pruned(v), Visited(v, sel))
  {
    hide ShapeAt, Pruned, Visited, Editable;
    forall l | l in Visited(v, sel) ensures ShapeAt(Pruned(v), l) == ShapeAt(v, l) {
      forall r: Loc | r <= l ensures Walk(v, r) != Found(Nil) { NotAbove(v, ts, sels, sel, l, r); }
      PrunedShape(v, l);
    }
  }

  lemma NotAbove(v: Json, ts: set<Target>, sels: set<Selection>, sel: Selection, l: Loc, r: Loc)
    requires MarkedAt(v, ts) && Tidy(v, ts, sels) && sel in sels && l in Visited(v, sel) && r <= l
    ensures Walk(v, r) != Found(Nil)
  {
    hide Visited, Editable, Comparable;
    if Walk(v, r) == Found(Nil) {
      var t :| t in ts && t.loc == r;
      NotUnder(v, sel, t.loc, l);
    }
  }

  lemma NotUnder(v: Json, sel: Selection, t: Loc, l: Loc)
    requires Calm(v, sel, t) && l in Visited(v, sel)
    ensures !(t <= l)
  {
  }

  /** A list reads the same, except that a mark reads as absent. */
  lemma PrunedRead(v: Json, ts: set<Target>, sels: set<Selection>, t: Target)
    requires Plain(v) && !v.Nil? && MarkedAt(v, ts) && Tidy(v, ts, sels) && t in ts
    ensures Read(Pruned(v), t.loc, t.kind) == if Read(v, t.loc, t.kind).Gone? then Absent else Read(v, t.loc, t.kind)
    ensures Editable(Pruned(v), t.loc, t.kind)
    ensures Walk(Pruned(v), t.loc).Found? ==> Walk(v, t.loc).Found?
  {
    hide Pruned, Calm;
    PrunedFound(v, t.loc);
    assert Editable(v, t.loc, t.kind);
    if Walk(v, t.loc).Found? && !Walk(v, t.loc).value.Nil? {
      var w := Walk(v, t.loc).value;
      forall r: Loc ensures Walk(w, r) != Found(Nil) {
        WalkSplit(v, t.loc, r);
        MarkApart(v, ts, sels, t, r);
      }
      NoMarks(w);
    }
  }

  lemma MarkApart(v: Json, ts: set<Target>, sels: set<Selection>, t: Target, r: Loc)
    requires MarkedAt(v, ts) && Tidy(v, ts, sels) && t in ts && Walk(v, t.loc) != Found(Nil)
    ensures Walk(v, t.loc + r) != Found(Nil)
  {
    hide Editable, Calm;
  }

  lemma PrunedTidy(v: Json, ts: set<Target>, sels: set<Selection>)
    requires Plain(v) && !v.Nil? && MarkedAt(v, ts) && Tidy(v, ts, sels)
    ensures Plain(Pruned(v)) && Tidy(Pruned(v), ts, sels) && Follows(Pruned(v), v, ts, sels)
    ensures forall sel :: sel in sels ==> BindablePods(Pruned(v), sel) == BindablePods(v, sel)
  {
    hide Pruned, ShapeAt, Visited, Calm, Alike, Norm, Editable, BindablePods;
    var p := Pruned(v);
    PrunedPlain(v);
    assert Plain(p) by { PlainPruned(v); }
    PlainListsOf(v, ts);
    forall t | t in ts ensures Editable(p, t.loc, t.kind) && (Walk(p, t.loc).Found? ==> Walk(v, t.loc).Found?) {
      PrunedRead(v, ts, sels, t);
    }
    forall sel | sel in sels
      ensures Alike(p, v, Visited(p, sel)) && BindablePods(p, sel) == BindablePods(v, sel)
      ensures forall t :: t in ts ==> Calm(p, sel, t.loc)
    {
      PrunedAlike(v, ts, sels, sel);
      PodsAlike(v, p, sel);
      CalmKept(v, p, ts, sel);
      AlikeBack(v, p, Visited(v, sel));
    }
    forall q: Loc | Elsewhere(v, ts, q) ensures Walk(v, q) == Walk(p, q) { PrunedElsewhere(v, ts, q); }
  }

  lemma PlainPruned(v: Json)
    requires Plain(v)
    ensures Plain(Pruned(v))
  {
    PrunedPlain(v);
  }

  lemma AlikeBack(d: Json, e: Json, ls: set<Loc>)
    requires Alike(d, e, ls)
    ensures Alike(e, d, ls)
  {
  }

  // ---- Passes do not see marks ----

  /** The views differ at most in marks of the first. */
  predicate Blurs(v: View, w: View)
  {
    v.Keys == w.Keys && forall t :: t in v ==> v[t] == w[t] || (v[t].Gone? && w[t].Absent?)
  }

  /** An edit keeps views that close, and adds no difference. */
  ghost predicate NoNew(v: View, w: View, v': View, w': View)
  {
    Blurs(v', w') && v'.Keys == v.Keys == w.Keys && forall t :: t in v && v'[t] != w'[t] ==> v[t] != w[t]
  }

  lemma EditBlurs(v: View, w: View, t: Target, op: Op)
    requires Blurs(v, w) && t in v
    ensures NoNew(v, w, Edit(v, t, op), Edit(w, t, op))
  {
  }

  lemma {:induction false} DropBlurs(v: View, w: View, t: Target, names: seq<string>)
    requires Blurs(v, w) && t in v
    ensures NoNew(v, w, DropAllV(v, t, names), DropAllV(w, t, names))
    decreases |names|
  {
    hide Run;
    if names != [] {
      EditBlurs(v, w, t, Drop(names[0]));
      DropBlurs(Edit(v, t, Drop(names[0])), Edit(w, t, Drop(names[0])), t, names[1..]);
    }
  }

  lemma StepBlurs(act: Action, b: Binding, v: View, w: View, c: MetaContainer)
    requires Blurs(v, w) && Covers(v, c)
    ensures NoNew(v, w, StepV(act, b, v, c), StepV(act, b, w, c))
  {
    hide Run, DropAllV;
    match act
    case AsEnv =>
      var v1, w1 := v, w;
      if !b.files {
        EditBlurs(v, w, EnvFromT(c), Drop(b.secret));
        v1, w1 := Edit(v, EnvFromT(c), Drop(b.secret)), Edit(w, EnvFromT(c), Drop(b.secret));
        EditBlurs(v1, w1, EnvFromT(c), Append([SecretRefEntry(b.secret)]));
        var added := Append([SecretRefEntry(b.secret)]);
        v1, w1 := Edit(v1, EnvFromT(c), added), Edit(w1, EnvFromT(c), added);
      }
      DropBlurs(v1, w1, EnvT(c), Variables(b));
      EditBlurs(DropAllV(v1, EnvT(c), Variables(b)), DropAllV(w1, EnvT(c), Variables(b)), EnvT(c),
        Append(EnvEntries(b)));
    case AsFiles =>
      var op := Ensure(BINDING_ROOT_VAR, ROOT_ENTRY);
      EditBlurs(v, w, EnvT(c), op);
      var v1, w1 := Edit(v, EnvT(c), op), Edit(w, EnvT(c), op);
      assert Listed(v1[EnvT(c)]) == Listed(w1[EnvT(c)]);
      var path := JoinPath(RootOf(Listed(v1[EnvT(c)])), b.name);
      EditBlurs(v1, w1, MountT(c), Upsert(b.name, MountEntry(b.name, path)));
    case Removal =>
      DropBlurs(v, w, EnvT(c), SecretKeys(b));
      var v1, w1 := DropAllV(v, EnvT(c), SecretKeys(b)), DropAllV(w, EnvT(c), SecretKeys(b));
      EditBlurs(v1, w1, EnvFromT(c), Drop(b.secret));
      EditBlurs(Edit(v1, EnvFromT(c), Drop(b.secret)), Edit(w1, EnvFromT(c), Drop(b.secret)), MountT(c), Drop(b.name));
  }

  lemma {:induction false} SweepBlurs(act: Action, b: Binding, v: View, w: View, cs: seq<MetaContainer>)
    requires Blurs(v, w) && CoversAll(v, cs)
    ensures CoversAll(w, cs) && NoNew(v, w, SweepV(act, b, v, cs), SweepV(act, b, w, cs))
    decreases |cs|
  {
    hide StepV;
    forall c | c in cs ensures Covers(w, c) { assert Covers(v, c); }
    if cs != [] {
      assert Covers(v, cs[0]);
      StepBlurs(act, b, v, w, cs[0]);
      CoversTail(v, StepV(act, b, v, cs[0]), cs);
      SweepBlurs(act, b, StepV(act, b, v, cs[0]), StepV(act, b, w, cs[0]), cs[1..]);
    }
  }

  lemma ProjectBlurs(b: Binding, v: View, w: View, site: Site)
    requires Blurs(v, w) && Fits(v, site)
    ensures Fits(w, site) && NoNew(v, w, ProjectV(b, v, site), ProjectV(b, w, site))
  {
    hide Run, SweepV;
    SweepBlurs(AsEnv, b, v, w, site.cs);
    if b.files {
      var v1 := if b.env == [] then v else SweepV(AsEnv, b, v, site.cs);
      var w1 := if b.env == [] then w else SweepV(AsEnv, b, w, site.cs);
      var op := Upsert(b.name, VolumeEntry(b));
      EditBlurs(v1, w1, VolumeT(site.sel), op);
      CoversSame(v, Edit(v1, VolumeT(site.sel), op), site.cs);
      SweepBlurs(AsFiles, b, Edit(v1, VolumeT(site.sel), op), Edit(w1, VolumeT(site.sel), op), site.cs);
    }
  }

  lemma CoversSame(v: View, w: View, cs: seq<MetaContainer>)
    requires v.Keys == w.Keys && CoversAll(v, cs)
    ensures CoversAll(w, cs)
  {
    forall c | c in cs ensures Covers(w, c) { assert Covers(v, c); }
  }

  lemma UnbindBlurs(b: Binding, v: View, w: View, site: Site)
    requires Blurs(v, w) && Fits(v, site)
    ensures Fits(w, site) && NoNew(v, w, UnbindV(b, v, site), UnbindV(b, w, site))
  {
    hide Run, SweepV;
    EditBlurs(v, w, VolumeT(site.sel), Drop(b.name));
    CoversSame(v, w, site.cs);
    CoversSame(v, Edit(v, VolumeT(site.sel), Drop(b.name)), site.cs);
    SweepBlurs(Removal, b, Edit(v, VolumeT(site.sel), Drop(b.name)), Edit(w, VolumeT(site.sel), Drop(b.name)), site.cs);
  }

  // ---- Putting marks back ----

  /** A mark in a map that is there is pruned away again. */
  lemma {:induction false} PrunedMark(v: Json, p: Loc, k: string)
    requires Walk(v, p).Found? && Walk(v, p).value.Obj? && k !in Walk(v, p).value.fields
    ensures CanPut(v, p + [Key(k)]) && Pruned(Put(v, p + [Key(k)], Nil)) == Pruned(v)
    decreases |p|
  {
    if p == [] {
      assert p + [Key(k)] == [Key(k)] && [Key(k)][1..] == [];
      assert Put(v, [Key(k)], Nil) == Obj(v.fields[k := Nil]);
    } else {
      var t := p + [Key(k)];
      assert t[0] == p[0] && t[1..] == p[1..] + [Key(k)];
      match p[0]
      case Key(j) =>
        PrunedMark(v.fields[j], p[1..], k);
        assert Put(v, t, Nil) == Obj(v.fields[j := Put(v.fields[j], t[1..], Nil)]);
      case At(i) =>
        PrunedMark(v.items[i], p[1..], k);
        assert Put(v, t, Nil) == List(v.items[i := Put(v.items[i], t[1..], Nil)], v.typed);
    }
  }

  lemma {:induction false} PlainPut(v: Json, p: Loc, x: Json)
    requires Plain(v) && Plain(x) && CanPut(v, p)
    ensures Plain(Put(v, p, x))
    decreases |p|
  {
    if p != [] {
      match p[0]
      case Key(k) =>
        var child := Under(v.fields, k);
        assert forall j | j in v.fields :: Norm(v).fields[j] == v.fields[j];
        assert Plain(child);
        PlainPut(child, p[1..], x);
        PlainObj(v.fields[k := Put(child, p[1..], x)]);
      case At(i) =>
        assert forall j | 0 <= j < |v.items| :: Norm(v).items[j] == v.items[j];
        PlainPut(v.items[i], p[1..], x);
        var w := Put(v, p, x);
        assert !v.typed;
        assert Norm(w).items == w.items;
    }
  }

  /** A map above a list that is not there stays, and lacks the list. */
  lemma Parent(p: Json, e: Json, ts: set<Target>, sels: set<Selection>, t: Target)
    requires Follows(p, e, ts, sels) && t in ts && !Walk(e, t.loc).Found?
    ensures t.loc != [] && t.loc[|t.loc| - 1].Key?
    ensures var base := t.loc[..|t.loc| - 1];
      Walk(p, base).Found? ==>
        Walk(e, base).Found? && Walk(e, base).value.Obj? && t.loc[|t.loc| - 1].key !in Walk(e, base).value.fields
  {
    hide Calm, Alike, Visited, Read, PlainSlot, Walk, CanPut;
    var base, k := t.loc[..|t.loc| - 1], t.loc[|t.loc| - 1].key;
    assert t.loc == base + [Key(k)];
    if Walk(p, base).Found? {
      ParentThere(p, e, ts, sels, t, base);
      assert Editable(e, t.loc, t.kind);
      Lacks(e, base, k);
    }
  }

  lemma ParentThere(p: Json, e: Json, ts: set<Target>, sels: set<Selection>, t: Target, base: Loc)
    requires Follows(p, e, ts, sels) && t in ts && !Walk(e, t.loc).Found? && base <= t.loc && Walk(p, base).Found?
    ensures Walk(e, base).Found?
  {
    hide Calm, Alike, Visited, Read, PlainSlot;
    if u :| u in ts && Walk(e, u.loc).Found? && base <= u.loc {
      assert u.loc == base + u.loc[|base|..];
      WalkSplit(e, base, u.loc[|base|..]);
    } else {
      assert Elsewhere(e, ts, base) by { Alone(e, ts, sels, t, base); }
    }
  }

  lemma Lacks(e: Json, base: Loc, k: string)
    requires Walk(e, base).Found? && CanPut(e, base + [Key(k)]) && !Walk(e, base + [Key(k)]).Found?
    ensures Walk(e, base).value.Obj? && k !in Walk(e, base).value.fields
  {
    Applications.CanPutSplit(e, base, [Key(k)]);
    WalkSplit(e, base, [Key(k)]);
    assert [Key(k)][1..] == [];
  }

  lemma Alone(e: Json, ts: set<Target>, sels: set<Selection>, t: Target, base: Loc)
    requires Tidy(e, ts, sels) && t in ts && !Walk(e, t.loc).Found? && base <= t.loc
    requires forall u :: u in ts && Walk(e, u.loc).Found? ==> !(base <= u.loc)
    ensures Elsewhere(e, ts, base)
  {
    hide Calm, Read;
    forall u | u in ts && Walk(e, u.loc).Found? ensures !Comparable(u.loc, base) {
      PrefixOfPrefix(u.loc, base, t.loc);
    }
  }

  lemma PrefixOfPrefix(p: Loc, q: Loc, r: Loc)
    requires q <= r
    ensures p <= q ==> p <= r
  {
  }

  lemma NilPlain()
    ensures Plain(Nil)
  {
  }

  /** Where the views differ. */
  function Odd(v: View, w: View): set<Target>
  {
    set t | t in v && t in w && v[t] != w[t]
  }

  lemma OddLess(v: View, w: View, t: Target)
    requires Blurs(v, w) && t in Odd(v, w)
    ensures v[t].Gone? && w[t].Absent? && Blurs(v, w[t := Gone])
    ensures Odd(v, w[t := Gone]) == Odd(v, w) - {t}
  {
  }

  lemma OddNone(v: View, w: View)
    requires Blurs(v, w) && Odd(v, w) == {}
    ensures v == w
  {
    forall t | t in v ensures v[t] == w[t] { assert t !in Odd(v, w); }
  }

  /** Documents that follow the same one and whose views differ in marks are
      the same document to the cluster. */
  lemma {:induction false} MarksBack(p: Json, d: Json, e: Json, ts: set<Target>, sels: set<Selection>)
    requires Plain(d) && Plain(e) && Follows(p, d, ts, sels) && Follows(p, e, ts, sels)
    requires Blurs(ViewOf(d, ts), ViewOf(e, ts))
    requires forall t :: t in Odd(ViewOf(d, ts), ViewOf(e, ts)) ==>
      t.loc != [] && Walk(p, t.loc[..|t.loc| - 1]).Found?
    ensures Pruned(d) == Pruned(e)
    decreases |Odd(ViewOf(d, ts), ViewOf(e, ts))|
  {
    hide Follows, Pruned, Plain, Put, Read, Walk, Blurs, Odd;
    var v, w := ViewOf(d, ts), ViewOf(e, ts);
    if Odd(v, w) == {} {
      OddNone(v, w);
      Determined(p, d, e, ts, sels, sels);
    } else {
      var t :| t in Odd(v, w);
      OddLess(v, w, t);
      OddKnown(v, w, t);
      var f := MarkBack(p, e, ts, sels, t);
      MarksBack(p, d, f, ts, sels);
    }
  }

  lemma OddKnown(v: View, w: View, t: Target)
    requires t in Odd(v, w)
    ensures t in v && t in w
  {
  }

  lemma MarkBack(p: Json, e: Json, ts: set<Target>, sels: set<Selection>, t: Target) returns (f: Json)
    requires Plain(e) && Follows(p, e, ts, sels) && t in ts && Read(e, t.loc, t.kind).Absent?
    requires t.loc != [] && Walk(p, t.loc[..|t.loc| - 1]).Found?
    ensures Plain(f) && Follows(p, f, ts, sels) && Pruned(f) == Pruned(e)
    ensures ViewOf(f, ts) == ViewOf(e, ts)[t := Gone]
  {
    hide Pruned, Norm, Calm, Alike, Visited, Put, CanPut;
    var k := t.loc[|t.loc| - 1].key;
    var base := t.loc[..|t.loc| - 1];
    Parent(p, e, ts, sels, t);
    assert t.loc == base + [Key(k)];
    PrunedMark(e, base, k);
    f := Put(e, t.loc, Nil);
    NilPlain();
    PlainPut(e, t.loc, Nil);
    PutGet(e, t.loc, Nil);
    PutPut(e, t.loc, Nil, Nil);
    forall q: Loc | !Comparable(t.loc, q) ensures Walk(f, q) == Walk(e, q) && (CanPut(f, q) <==> CanPut(e, q)) {
      PutOther(e, t.loc, Nil, q);
      CanPutOther(e, t.loc, Nil, q);
    }
    PutFollows(e, f, ts, sels, t, Nil);
    FollowsTrans(p, e, f, ts, sels);
    ReadsMarked(e, f, ts, t);
  }

  lemma ReadsMarked(e: Json, f: Json, ts: set<Target>, t: Target)
    requires t in ts && Read(f, t.loc, t.kind).Gone?
    requires forall u :: u in ts && u != t ==> Read(f, u.loc, u.kind) == Read(e, u.loc, u.kind)
    ensures ViewOf(f, ts) == ViewOf(e, ts)[t := Gone]
  {
    hide Read;
  }

  /** The pruned workload has the same site, and a view without marks. */
  lemma PrunedReady(m: Json, ts: set<Target>, sels: set<Selection>, site: Site)
    requires Plain(m) && !m.Nil? && MarkedAt(m, ts) && Ready(m, ts, sels, site)
    ensures Plain(Pruned(m)) && Ready(Pruned(m), ts, sels, site) && Follows(Pruned(m), m, ts, sels)
    ensures Blurs(ViewOf(m, ts), ViewOf(Pruned(m), ts))
    ensures forall t :: t in ts && ViewOf(m, ts)[t] != ViewOf(Pruned(m), ts)[t] ==>
      t.loc != [] && Walk(Pruned(m), t.loc[..|t.loc| - 1]).Found?
  {
    hide Pruned, Follows, BindablePods, Calm;
    PrunedTidy(m, ts, sels);
    forall t | t in ts
      ensures Read(Pruned(m), t.loc, t.kind) == if Read(m, t.loc, t.kind).Gone? then Absent else Read(m, t.loc, t.kind)
      ensures Read(m, t.loc, t.kind).Gone? ==> t.loc != [] && Walk(Pruned(m), t.loc[..|t.loc| - 1]).Found?
    {
      PrunedRead(m, ts, sels, t);
      if Read(m, t.loc, t.kind).Gone? { MarkParent(m, t.loc); }
    }
    CoversSame(ViewOf(m, ts), ViewOf(Pruned(m), ts), site.cs);
  }

  lemma MarkParent(m: Json, t: Loc)
    requires !m.Nil? && Walk(m, t) == Found(Nil)
    ensures t != [] && (t[|t| - 1].Key? ==> Walk(Pruned(m), t[..|t| - 1]).Found?)
  {
    hide Pruned;
    var base := t[..|t| - 1];
    assert t == base + [t[|t| - 1]];
    WalkSplit(m, base, [t[|t| - 1]]);
    PrunedFound(m, base);
  }

  lemma SameForCluster(p: Json, m: Json, d: Json, e: Json, ts: set<Target>, sels: set<Selection>)
    requires Plain(d) && Plain(e) && Follows(p, m, ts, sels) && Follows(m, d, ts, sels) && Follows(p, e, ts, sels)
    requires NoNew(ViewOf(m, ts), ViewOf(p, ts), ViewOf(d, ts), ViewOf(e, ts))
    requires forall t :: t in ts && ViewOf(m, ts)[t] != ViewOf(p, ts)[t] ==>
      t.loc != [] && Walk(p, t.loc[..|t.loc| - 1]).Found?
    ensures Pruned(d) == Pruned(e)
  {
    hide Pruned, Follows, Plain, Read, Walk;
    FollowsTrans(p, m, d, ts, sels);
    MarksBack(p, d, e, ts, sels);
  }

  /** Projecting does not see marks: with and without them the cluster ends up
      with the same workload. */
  lemma BoundUnseen(b: Binding, m: Json, ts: set<Target>, sels: set<Selection>, site: Site, lenient: bool)
    requires Plain(m) && !m.Nil? && MarkedAt(m, ts) && Ready(m, ts, sels, site)
    ensures Pruned(Bound(b, m, site.sel, lenient)) == Pruned(Bound(b, Pruned(m), site.sel, lenient))
  {
    hide Pruned, Follows, Bound, ProjectV, Plain, Read, Walk, NoNew, Blurs, Tidy, BindablePods;
    var p := Pruned(m);
    PrunedReady(m, ts, sels, site);
    BoundRefines(b, m, ts, sels, site, lenient);
    BoundRefines(b, p, ts, sels, site, lenient);
    ProjectBlurs(b, ViewOf(m, ts), ViewOf(p, ts), site);
    SameForCluster(p, m, Bound(b, m, site.sel, lenient), Bound(b, p, site.sel, lenient), ts, sels);
  }

  lemma UnboundUnseen(b: Binding, m: Json, ts: set<Target>, sels: set<Selection>, site: Site)
    requires Plain(m) && !m.Nil? && MarkedAt(m, ts) && Ready(m, ts, sels, site)
    ensures Pruned(Unbound(b, m, site.sel)) == Pruned(Unbound(b, Pruned(m), site.sel))
  {
    hide Pruned, Follows, Unbound, UnbindV, Plain, Read, Walk, NoNew, Blurs, Tidy, BindablePods;
    var p := Pruned(m);
    PrunedReady(m, ts, sels, site);
    UnboundRefines(b, m, ts, sels, site);
    UnboundRefines(b, p, ts, sels, site);
    UnbindBlurs(b, ViewOf(m, ts), ViewOf(p, ts), site);
    SameForCluster(p, m, Unbound(b, m, site.sel), Unbound(b, p, site.sel), ts, sels);
  }

  // ---- Marks stay where they belong ----

  predicate Unmarked(v: Json)
  {
    match v
    case Nil => false
    case List(items, _) => forall i :: 0 <= i < |items| ==> Unmarked(items[i])
    case Obj(fields) => forall k :: k in fields ==> Unmarked(fields[k])
    case _ => true
  }

  lemma {:induction false} UnmarkedWalk(v: Json, q: Loc)
    requires Unmarked(v)
    ensures Walk(v, q) != Found(Nil)
    decreases |q|
  {
    if q != [] {
      match q[0]
      case Key(k) => if v.Obj? && k in v.fields { UnmarkedWalk(v.fields[k], q[1..]); }
      case At(i) => if v.List? && i < |v.items| { UnmarkedWalk(v.items[i], q[1..]); }
    }
  }

  lemma {:induction false} UnmarkedIs(v: Json)
    requires forall q: Loc :: Walk(v, q) != Found(Nil)
    ensures Unmarked(v)
  {
    assert Walk(v, []) != Found(Nil);
    match v
    case List(items, _) =>
      forall i | 0 <= i < |items| ensures Unmarked(items[i]) {
        forall q: Loc ensures Walk(items[i], q) != Found(Nil) {
          assert Walk(v, [At(i)] + q) == Walk(items[i], q) by { assert ([At(i)] + q)[1..] == q; }
        }
        UnmarkedIs(items[i]);
      }
    case Obj(fields) =>
      forall k | k in fields ensures Unmarked(fields[k]) {
        forall q: Loc ensures Walk(fields[k], q) != Found(Nil) {
          assert Walk(v, [Key(k)] + q) == Walk(fields[k], q) by { assert ([Key(k)] + q)[1..] == q; }
        }
        UnmarkedIs(fields[k]);
      }
    case _ =>
  }

  predicate Pure(xs: seq<Json>)
  {
    forall x :: x in xs ==> Unmarked(x)
  }

  predicate PureOp(op: Op)
  {
    match op
    case Drop(_) => true
    case Upsert(_, e) => Unmarked(e)
    case Append(es) => Pure(es)
    case Ensure(_, e) => Unmarked(e)
  }

  predicate PureView(v: View)
  {
    forall t :: t in v ==> Pure(Listed(v[t]))
  }

  lemma RunPure(kind: Kind, op: Op, s: Slot)
    requires PureOp(op) && Pure(Listed(s))
    ensures Pure(Listed(Run(kind, op, s)))
  {
    hide Unmarked, Named, Count;
    if op.Drop? { DropFirstMembers(kind, Listed(s), op.name); }
    if op.Upsert? {
      forall x | x in Replace(kind, Listed(s), op.name, op.entry) ensures Unmarked(x) {
        var i :| 0 <= i < |Listed(s)| && Replace(kind, Listed(s), op.name, op.entry)[i] == x;
        assert Listed(s)[i] in Listed(s);
      }
    }
  }

  lemma EditPure(v: View, t: Target, op: Op)
    requires PureView(v) && t in v && PureOp(op)
    ensures PureView(Edit(v, t, op))
  {
    hide Run, Pure;
    RunPure(t.kind, op, v[t]);
  }

  lemma {:induction false} DropPure(v: View, t: Target, names: seq<string>)
    requires PureView(v) && t in v
    ensures PureView(DropAllV(v, t, names))
    decreases |names|
  {
    hide Run, PureView;
    if names != [] {
      EditPure(v, t, Drop(names[0]));
      DropPure(Edit(v, t, Drop(names[0])), t, names[1..]);
    }
  }

  lemma EntriesPure(b: Binding, path: string)
    ensures Unmarked(VolumeEntry(b)) && Unmarked(MountEntry(b.name, path)) && Unmarked(ROOT_ENTRY)
    ensures Unmarked(SecretRefEntry(b.secret)) && Pure(EnvEntries(b))
  {
    assert Unmarked(Obj(map[]));
    forall i | 0 <= i < |b.env| ensures Unmarked(EnvEntries(b)[i]) { EnvEntryPure(b.env[i], b.secret); }
  }

  lemma EnvEntryPure(e: EnvBinding, secret: string)
    ensures Unmarked(EnvEntry(e, secret))
  {
    var ref := Obj(Optional("name", secret)["key" := Str(e.key)]);
    assert Unmarked(ref);
    assert Unmarked(Obj(map["secretKeyRef" := ref]));
  }

  lemma StepPure(act: Action, b: Binding, v: View, c: MetaContainer)
    requires PureView(v) && Covers(v, c)
    ensures PureView(StepV(act, b, v, c))
  {
    hide Run, DropAllV, PureView, Unmarked;
    EntriesPure(b, "");
    match act
    case AsEnv =>
      var w := v;
      if !b.files {
        EditPure(v, EnvFromT(c), Drop(b.secret));
        EditPure(Edit(v, EnvFromT(c), Drop(b.secret)), EnvFromT(c), Append([SecretRefEntry(b.secret)]));
        w := Edit(Edit(v, EnvFromT(c), Drop(b.secret)), EnvFromT(c), Append([SecretRefEntry(b.secret)]));
      }
      DropPure(w, EnvT(c), Variables(b));
      EditPure(DropAllV(w, EnvT(c), Variables(b)), EnvT(c), Append(EnvEntries(b)));
    case AsFiles =>
      var w := Edit(v, EnvT(c), Ensure(BINDING_ROOT_VAR, ROOT_ENTRY));
      EditPure(v, EnvT(c), Ensure(BINDING_ROOT_VAR, ROOT_ENTRY));
      var path := JoinPath(RootOf(Listed(w[EnvT(c)])), b.name);
      EntriesPure(b, path);
      EditPure(w, MountT(c), Upsert(b.name, MountEntry(b.name, path)));
    case Removal =>
      DropPure(v, EnvT(c), SecretKeys(b));
      var w := DropAllV(v, EnvT(c), SecretKeys(b));
      EditPure(w, EnvFromT(c), Drop(b.secret));
      EditPure(Edit(w, EnvFromT(c), Drop(b.secret)), MountT(c), Drop(b.name));
  }

  lemma {:induction false} SweepPure(act: Action, b: Binding, v: View, cs: seq<MetaContainer>)
    requires PureView(v) && CoversAll(v, cs)
    ensures PureView(SweepV(act, b, v, cs))
    decreases |cs|
  {
    hide StepV, PureView;
    if cs != [] {
      assert Covers(v, cs[0]);
      StepPure(act, b, v, cs[0]);
      CoversTail(v, StepV(act, b, v, cs[0]), cs);
      SweepPure(act, b, StepV(act, b, v, cs[0]), cs[1..]);
    }
  }

  lemma PassPure(b: Binding, v: View, site: Site)
    requires PureView(v) && Fits(v, site)
    ensures PureView(ProjectV(b, v, site)) && PureView(UnbindV(b, v, site))
  {
    hide Run, SweepV, PureView, Unmarked;
    EntriesPure(b, "");
    SweepPure(AsEnv, b, v, site.cs);
    if b.files {
      var w := if b.env == [] then v else SweepV(AsEnv, b, v, site.cs);
      EditPure(w, VolumeT(site.sel), Upsert(b.name, VolumeEntry(b)));
      CoversSame(v, Edit(w, VolumeT(site.sel), Upsert(b.name, VolumeEntry(b))), site.cs);
      SweepPure(AsFiles, b, Edit(w, VolumeT(site.sel), Upsert(b.name, VolumeEntry(b))), site.cs);
    }
    EditPure(v, VolumeT(site.sel), Drop(b.name));
    CoversSame(v, Edit(v, VolumeT(site.sel), Drop(b.name)), site.cs);
    SweepPure(Removal, b, Edit(v, VolumeT(site.sel), Drop(b.name)), site.cs);
  }

  lemma ViewPure(v: Json, ts: set<Target>, sels: set<Selection>)
    requires MarkedAt(v, ts) && Tidy(v, ts, sels)
    ensures PureView(ViewOf(v, ts))
  {
    hide Calm, Unmarked, MarkedAt, Walk;
    forall t, x | t in ts && x in Listed(Read(v, t.loc, t.kind)) ensures Unmarked(x) {
      EntryPure(v, ts, sels, t, x);
    }
  }

  lemma EntryPure(v: Json, ts: set<Target>, sels: set<Selection>, t: Target, x: Json)
    requires MarkedAt(v, ts) && Tidy(v, ts, sels) && t in ts && x in Listed(Read(v, t.loc, t.kind))
    ensures Unmarked(x)
  {
    hide Calm, Unmarked, MarkedAt, Tidy;
    var w := Walk(v, t.loc).value;
    var i :| 0 <= i < |w.items| && w.items[i] == x;
    forall r: Loc ensures Walk(x, r) != Found(Nil) {
      WalkSplit(v, t.loc, [At(i)] + r);
      assert ([At(i)] + r)[1..] == r;
      MarkApart(v, ts, sels, t, [At(i)] + r);
    }
    UnmarkedIs(x);
  }

  lemma MarkedKept(m: Json, d: Json, ts: set<Target>, sels: set<Selection>)
    requires MarkedAt(m, ts) && Follows(m, d, ts, sels) && PureView(ViewOf(d, ts))
    ensures MarkedAt(d, ts)
  {
    hide Calm, Alike, Visited, Unmarked, PlainSlot, PureView;
    forall q: Loc | Walk(d, q) == Found(Nil) && !Elsewhere(d, ts, q) ensures exists t :: t in ts && t.loc == q {
      var t :| t in ts && Walk(d, t.loc).Found? && Comparable(t.loc, q);
      MarkOn(d, ts, t, q);
    }
  }

  lemma MarkOn(d: Json, ts: set<Target>, t: Target, q: Loc)
    requires t in ts && Editable(d, t.loc, t.kind) && PureView(ViewOf(d, ts)) && Walk(d, t.loc).Found?
    requires Walk(d, q) == Found(Nil) && Comparable(t.loc, q)
    ensures t.loc == q
  {
    hide PureView, ViewOf, Editable, Read;
    if q <= t.loc {
      assert t.loc == q + t.loc[|q|..];
      WalkSplit(d, q, t.loc[|q|..]);
    } else {
      assert q == t.loc + q[|t.loc|..];
      MarkInside(d, ts, t, q[|t.loc|..]);
    }
  }

  /** There are no marks inside a list. */
  lemma MarkInside(d: Json, ts: set<Target>, t: Target, r: Loc)
    requires t in ts && Editable(d, t.loc, t.kind) && PureView(ViewOf(d, ts)) && Walk(d, t.loc).Found? && r != []
    ensures Walk(d, t.loc + r) != Found(Nil)
  {
    hide Unmarked;
    WalkSplit(d, t.loc, r);
    var w := Walk(d, t.loc).value;
    if w.List? {
      assert Read(d, t.loc, t.kind) == ViewOf(d, ts)[t];
      if r[0].At? && r[0].index < |w.items| {
        assert w.items[r[0].index] in w.items;
        UnmarkedWalk(w.items[r[0].index], r[1..]);
      }
    }
  }

  // ---- What the cluster holds ----

  /** The workload that the cluster holds after a projecting pass over `doc`. */
  function Held(b: Binding, doc: Json, sel: Selection, lenient: bool): Json
  {
    Pruned(Bound(b, doc, sel, lenient))
  }

  /** What the cluster holds after an unbinding pass over `doc`. */
  function Released(b: Binding, doc: Json, sel: Selection): Json
  {
    Pruned(Unbound(b, doc, sel))
  }

  lemma BoundMarked(b: Binding, doc: Json, sel: Selection, lenient: bool)
    requires Workable(doc, sel) && MarkedAt(doc, SiteTargets(SiteOf(doc, sel)))
    ensures var d := Bound(b, doc, sel, lenient);
      && Workable(d, sel) && SiteOf(d, sel) == SiteOf(doc, sel) && MarkedAt(d, SiteTargets(SiteOf(doc, sel)))
  {
    hide Pruned, Follows, Bound, Unbound, ProjectV, Plain, Read, Walk, MarkedAt, PureView, Coherent, BindablePods;
    var site := SiteOf(doc, sel);
    var ts := SiteTargets(site);
    WorkableReady(doc, sel);
    BoundRefines(b, doc, ts, {sel}, site, lenient);
    ViewPure(doc, ts, {sel});
    PassPure(b, ViewOf(doc, ts), site);
    MarkedKept(doc, Bound(b, doc, sel, lenient), ts, {sel});
  }

  lemma UnboundMarked(b: Binding, doc: Json, sel: Selection)
    requires Workable(doc, sel) && MarkedAt(doc, SiteTargets(SiteOf(doc, sel)))
    ensures var d := Unbound(b, doc, sel);
      && Workable(d, sel) && SiteOf(d, sel) == SiteOf(doc, sel) && MarkedAt(d, SiteTargets(SiteOf(doc, sel)))
  {
    hide Pruned, Follows, Unbound, UnbindV, Plain, Read, Walk, MarkedAt, PureView, Coherent, BindablePods;
    var site := SiteOf(doc, sel);
    var ts := SiteTargets(site);
    WorkableReady(doc, sel);
    UnboundRefines(b, doc, ts, {sel}, site);
    ViewPure(doc, ts, {sel});
    PassPure(b, ViewOf(doc, ts), site);
    MarkedKept(doc, Unbound(b, doc, sel), ts, {sel});
  }

  lemma PassesUnseen(b: Binding, doc: Json, sel: Selection, lenient: bool)
    requires Workable(doc, sel) && MarkedAt(doc, SiteTargets(SiteOf(doc, sel)))
    ensures Held(b, doc, sel, lenient) == Held(b, Pruned(doc), sel, lenient)
    ensures Released(b, doc, sel) == Released(b, Pruned(doc), sel)
  {
    hide Pruned, Bound, Unbound, MarkedAt, Coherent, BindablePods, Tidy;
    var site := SiteOf(doc, sel);
    WorkableReady(doc, sel);
    RootUnmarked(doc, SiteTargets(site), {sel});
    BoundUnseen(b, doc, SiteTargets(site), {sel}, site, lenient);
    UnboundUnseen(b, doc, SiteTargets(site), {sel}, site);
  }

  lemma RootUnmarked(doc: Json, ts: set<Target>, sels: set<Selection>)
    requires Tidy(doc, ts, sels) && MarkedAt(doc, ts)
    ensures !doc.Nil?
  {
    hide Calm;
    assert Walk(doc, []) == Found(doc);
  }

  /**
   * The convergence of repeated passes (Converges), for what the cluster holds
   * between one pass and the next: from the second pass on nothing changes, and
   * without variable mappings not even the second pass changes anything.
   */
  lemma HeldConverges(b: Binding, doc: Json, sel: Selection, lenient: bool)
    requires Workable(doc, sel) && MarkedAt(doc, SiteTargets(SiteOf(doc, sel)))
    requires CleanFor(AsEnv, b, doc, sel) && Distinct(Variables(b))
    ensures var one := Held(b, doc, sel, lenient);
      var two := Held(b, one, sel, lenient);
      && Held(b, two, sel, lenient) == two
      && (b.env == [] ==> two == one)
  {
    hide Pruned, Bound, MarkedAt, Workable, CleanFor;
    var one := Bound(b, doc, sel, lenient);
    BoundMarked(b, doc, sel, lenient);
    PassesUnseen(b, one, sel, lenient);
    BoundMarked(b, one, sel, lenient);
    PassesUnseen(b, Bound(b, one, sel, lenient), sel, lenient);
    Converges(b, doc, sel, lenient);
  }

  /** What the cluster holds after binding `b` and then unbinding `a` is what the two passes in a row leave. */
  lemma HeldReleased(a: Binding, b: Binding, doc: Json, sel: Selection, lenient: bool)
    requires Workable(doc, sel) && MarkedAt(doc, SiteTargets(SiteOf(doc, sel)))
    ensures Released(a, Held(b, doc, sel, lenient), sel)
      == Pruned(Unbound(a, Bound(b, doc, sel, lenient), sel))
  {
    hide Pruned, Bound, Unbound, MarkedAt, Workable;
    BoundMarked(b, doc, sel, lenient);
    PassesUnseen(a, Bound(b, doc, sel, lenient), sel, lenient);
  }

  /** The same for binding A, binding B and unbinding A. */
  lemma HeldPair(a: Binding, b: Binding, doc: Json, sel: Selection, lenient: bool)
    requires Workable(doc, sel) && MarkedAt(doc, SiteTargets(SiteOf(doc, sel)))
    ensures Released(a, Held(b, Held(a, doc, sel, lenient), sel, lenient), sel)
      == Pruned(Unbound(a, Bound(b, Bound(a, doc, sel, lenient), sel, lenient), sel))
  {
    hide Pruned, Bound, Unbound, MarkedAt, Workable;
    var one := Bound(a, doc, sel, lenient);
    BoundMarked(a, doc, sel, lenient);
    PassesUnseen(b, one, sel, lenient);
    HeldReleased(a, b, one, sel, lenient);
  }

  // ---- Sequences of passes ----

  /** One pass over a workload. */
  datatype Turn = Project(b: Binding) | Remove(b: Binding)

  function Turned(turn: Turn, doc: Json, sel: Selection, lenient: bool): Json
  {
    match turn
    case Project(b) => Bound(b, doc, sel, lenient)
    case Remove(b) => Unbound(b, doc, sel)
  }

  /** The workload after passes that see what the model stores, marks included. */
  function StoredAfter(turns: seq<Turn>, doc: Json, sel: Selection, lenient: bool): Json
    decreases |turns|
  {
    if turns == [] then doc else StoredAfter(turns[1..], Turned(turns[0], doc, sel, lenient), sel, lenient)
  }

  /** The workload after passes that each see what the cluster holds. */
  function HeldAfter(turns: seq<Turn>, doc: Json, sel: Selection, lenient: bool): Json
    decreases |turns|
  {
    if turns == [] then Pruned(doc)
    else HeldAfter(turns[1..], Pruned(Turned(turns[0], doc, sel, lenient)), sel, lenient)
  }

  lemma {:induction false} PrunedTwice(v: Json)
    ensures Pruned(Pruned(v)) == Pruned(v)
  {
    match v
    case List(items, _) =>
      forall i | 0 <= i < |items| ensures Pruned(Pruned(items[i])) == Pruned(items[i]) { PrunedTwice(items[i]); }
    case Obj(fields) =>
      forall k | k in fields ensures Pruned(Pruned(fields[k])) == Pruned(fields[k]) { PrunedTwice(fields[k]); }
      assert forall k | k in fields :: Pruned(fields[k]).Nil? <==> fields[k].Nil?;
    case _ =>
  }

  lemma TurnUnseen(turn: Turn, doc: Json, sel: Selection, lenient: bool)
    requires Workable(doc, sel) && MarkedAt(doc, SiteTargets(SiteOf(doc, sel)))
    ensures Pruned(Turned(turn, Pruned(doc), sel, lenient)) == Pruned(Turned(turn, doc, sel, lenient))
    ensures var d := Turned(turn, doc, sel, lenient); Workable(d, sel) && MarkedAt(d, SiteTargets(SiteOf(d, sel)))
  {
    hide Pruned, Bound, Unbound, MarkedAt, Workable;
    PassesUnseen(turn.b, doc, sel, lenient);
    match turn
    case Project(b) => BoundMarked(b, doc, sel, lenient);
    case Remove(b) => UnboundMarked(b, doc, sel);
  }

  /** Over any sequence of passes, by any bindings, the cluster holds what the
      model stores without the marks: whatever the laws say about sequences of
      stored workloads, they say about the cluster. */
  lemma {:induction false} HeldRun(turns: seq<Turn>, doc: Json, sel: Selection, lenient: bool)
    requires Workable(doc, sel) && MarkedAt(doc, SiteTargets(SiteOf(doc, sel)))
    ensures HeldAfter(turns, doc, sel, lenient) == Pruned(StoredAfter(turns, doc, sel, lenient))
    ensures HeldAfter(turns, Pruned(doc), sel, lenient) == HeldAfter(turns, doc, sel, lenient)
    ensures var d := StoredAfter(turns, doc, sel, lenient); Workable(d, sel) && MarkedAt(d, SiteTargets(SiteOf(d, sel)))
    decreases |turns|
  {
    hide Pruned, Turned, MarkedAt, Workable;
    if turns == [] {
      PrunedTwice(doc);
    } else {
      TurnUnseen(turns[0], doc, sel, lenient);
      HeldRun(turns[1..], Turned(turns[0], doc, sel, lenient), sel, lenient);
    }
  }

  /** Every list of the workload reads the same with and without the marks. */
  lemma HeldReads(doc: Json, sel: Selection, t: Target)
    requires Workable(doc, sel) && MarkedAt(doc, SiteTargets(SiteOf(doc, sel))) && t in SiteTargets(SiteOf(doc, sel))
    ensures Listed(Read(Pruned(doc), t.loc, t.kind)) == Listed(Read(doc, t.loc, t.kind))
  {
    hide Pruned, MarkedAt, BindablePods, Coherent, Tidy, SiteTargets;
    RootUnmarked(doc, SiteTargets(SiteOf(doc, sel)), {sel});
    PrunedRead(doc, SiteTargets(SiteOf(doc, sel)), {sel}, t);
  }

  /** The passes of a binding with one secret after another. */
  function SecretTurns(b: Binding, secrets: seq<string>): seq<Turn>
  {
    if secrets == [] then [] else [Project(b.(secret := secrets[0]))] + SecretTurns(b, secrets[1..])
  }

  lemma {:induction false} SecretTurnsStore(b: Binding, secrets: seq<string>, doc: Json, sel: Selection, lenient: bool)
    ensures StoredAfter(SecretTurns(b, secrets), doc, sel, lenient) == BoundSeq(b, secrets, doc, sel, lenient)
    decreases |secrets|
  {
    hide Bound;
    if secrets != [] {
      var turn := Project(b.(secret := secrets[0]));
      assert ([turn] + SecretTurns(b, secrets[1..]))[1..] == SecretTurns(b, secrets[1..]);
      SecretTurnsStore(b, secrets[1..], Bound(turn.b, doc, sel, lenient), sel, lenient);
    }
  }

  /** After any sequence of secrets the cluster holds what the passes in a row
      leave, and every list reads as in that workload: Forgets, LatestVolume and
      LatestReference speak about the cluster too. */
  lemma HeldSecrets(b: Binding, secrets: seq<string>, doc: Json, sel: Selection, lenient: bool)
    requires Workable(doc, sel) && MarkedAt(doc, SiteTargets(SiteOf(doc, sel)))
    ensures var h, d := HeldAfter(SecretTurns(b, secrets), doc, sel, lenient), BoundSeq(b, secrets, doc, sel, lenient);
      && h == Pruned(d)
      && forall t :: t in SiteTargets(SiteOf(d, sel)) ==>
           Listed(Read(h, t.loc, t.kind)) == Listed(Read(d, t.loc, t.kind))
  {
    hide Pruned, MarkedAt, Workable, StoredAfter, HeldAfter, BoundSeq, Read, SiteTargets;
    var d := BoundSeq(b, secrets, doc, sel, lenient);
    HeldRun(SecretTurns(b, secrets), doc, sel, lenient);
    SecretTurnsStore(b, secrets, doc, sel, lenient);
    forall t | t in SiteTargets(SiteOf(d, sel))
      ensures Listed(Read(Pruned(d), t.loc, t.kind)) == Listed(Read(d, t.loc, t.kind))
    {
      HeldReads(d, sel, t);
    }
  }
}
