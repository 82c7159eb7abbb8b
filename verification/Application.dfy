/**
 The workload as the code edits it: an application holds the document, and
 container handles are locations in it. Every method is proved against the
 corresponding function on documents.
 */
module Applications {

  import opened Documents
  import opened Entries
  import opened Pods
  import opened Views
  import opened Projection

  /** The location is that of a map: a live handle. */
  predicate Holds(doc: Json, loc: Loc)
  {
    Walk(doc, loc).Found? && Walk(doc, loc).value.Obj?
  }

  // ---- Facts about writing through a handle ----

  lemma {:induction false} CanPutSplit(v: Json, p: Loc, q: Loc)
    ensures Walk(v, p).Found? ==> (CanPut(v, p + q) <==> CanPut(Walk(v, p).value, q))
    ensures Walk(v, p).Failed? ==> !CanPut(v, p + q)
    decreases |p|
  {
    if p == [] {
      assert p + q == q;
    } else {
      assert (p + q)[1..] == p[1..] + q;
      match p[0]
      case Key(k) => if v.Obj? && k in v.fields { CanPutSplit(v.fields[k], p[1..], q); }
      case At(i) => if v.List? && i < |v.items| { CanPutSplit(v.items[i], p[1..], q); }
    }
  }

  /** One level of a write. */
  lemma PutInto(v: Json, p: Loc, x: Json)
    requires p != []
    ensures p[0].Key? && v.Obj? ==>
      var child := Under(v.fields, p[0].key);
      Put(v, p, x) == Obj(v.fields[p[0].key := Put(child, p[1..], x)]) && (CanPut(v, p) <==> CanPut(child, p[1..]))
    ensures p[0].At? && v.List? && p[0].index < |v.items| ==>
      var child := v.items[p[0].index];
      && Put(v, p, x) == List(v.items[p[0].index := Put(child, p[1..], x)], v.typed)
      && (CanPut(v, p) <==> CanPut(child, p[1..]))
    ensures CanPut(v, p) ==> if p[0].Key? then v.Obj? else v.List? && p[0].index < |v.items|
  {
  }

  /** Creating an absent map on the way does not change what a write does. */
  lemma {:induction false} MakeMap(v: Json, p: Loc, q: Loc, x: Json)
    requires CanPut(v, p) && (Walk(v, p).Missing? || Walk(v, p) == Found(EMPTY))
    ensures CanPut(Put(v, p, EMPTY), p + q) <==> CanPut(v, p + q)
    ensures Put(Put(v, p, EMPTY), p + q, x) == Put(v, p + q, x)
    decreases |p|
  {
    if p == [] {
      assert p + q == q;
    } else {
      MakeMapStep(v, p, q, x);
    }
  }

  lemma {:induction false} MakeMapStep(v: Json, p: Loc, q: Loc, x: Json)
    requires p != [] && CanPut(v, p) && (Walk(v, p).Missing? || Walk(v, p) == Found(EMPTY))
    ensures CanPut(Put(v, p, EMPTY), p + q) <==> CanPut(v, p + q)
    ensures Put(Put(v, p, EMPTY), p + q, x) == Put(v, p + q, x)
    decreases |p|, 0
  {
    hide Put, CanPut;
    var rest := p[1..];
    assert (p + q)[1..] == rest + q && (p + q)[0] == p[0];
    PutInto(v, p, EMPTY);
    PutInto(v, p + q, x);
    PutInto(Put(v, p, EMPTY), p + q, x);
    match p[0] {
      case Key(k) =>
        var child := Under(v.fields, k);
        MakeMap(child, rest, q, x);
        assert Under(v.fields[k := Put(child, rest, EMPTY)], k) == Put(child, rest, EMPTY);
      case At(i) => MakeMap(v.items[i], rest, q, x);
    }
  }

  lemma KeysStep(path: seq<string>, i: nat)
    requires i < |path|
    ensures Keys(path[..i]) + [Key(path[i])] == Keys(path[..i + 1])
    ensures Keys(path) == Keys(path[..i]) + [Key(path[i])] + Keys(path[i + 1..])
    ensures Keys(path) == Keys(path[..i]) + Keys(path[i..])
  {
  }

  /** One step of the walk towards the list: a missing map is created, a map
      is entered, and anything else means that no write is possible. */
  lemma Descent(doc: Json, loc: Loc, path: seq<string>, i: nat, x: Json)
    requires i + 1 < |path| && Holds(doc, loc + Keys(path[..i]))
    ensures var here, next, full := loc + Keys(path[..i]), loc + Keys(path[..i + 1]), loc + Keys(path);
      var current := Walk(doc, here).value.fields;
      && next == here + [Key(path[i])]
      && (path[i] !in current ==>
            && Walk(Put(doc, next, EMPTY), next) == Found(EMPTY)
            && (CanPut(Put(doc, next, EMPTY), full) <==> CanPut(doc, full))
            && Put(Put(doc, next, EMPTY), full, x) == Put(doc, full, x))
      && (path[i] in current ==> Walk(doc, next) == Found(current[path[i]]))
      && (path[i] in current && !current[path[i]].Obj? ==> !CanPut(doc, full))
  {
    var here, next, full := loc + Keys(path[..i]), loc + Keys(path[..i + 1]), loc + Keys(path);
    var rest := Keys(path[i + 1..]);
    KeysStep(path, i);
    assert next == here + [Key(path[i])];
    assert full == next + rest;
    WalkSplit(doc, here, [Key(path[i])]);
    CanPutSplit(doc, here, [Key(path[i])]);
    CanPutSplit(doc, next, rest);
    if path[i] !in Walk(doc, here).value.fields {
      PutGet(doc, next, EMPTY);
      MakeMap(doc, next, rest, x);
    }
  }

  lemma {:induction false} DropAt(kind: Kind, xs: seq<Json>, i: nat, n: string)
    requires i < |xs| && Named(kind, xs[i], n) && forall j :: 0 <= j < i ==> !Named(kind, xs[j], n)
    ensures Has(kind, xs, n) && DropFirst(kind, xs, n) == xs[..i] + xs[i + 1..]
    decreases i
  {
    if i > 0 {
      DropAt(kind, xs[1..], i - 1, n);
      assert xs[..i] + xs[i + 1..] == [xs[0]] + (xs[1..][..i - 1] + xs[1..][i..]);
    }
  }

  lemma {:induction false} NoneNamedAt(kind: Kind, xs: seq<Json>, n: string)
    requires forall j :: 0 <= j < |xs| ==> !Named(kind, xs[j], n)
    ensures !Has(kind, xs, n)
  {
    if xs != [] { NoneNamedAt(kind, xs[1..], n); }
  }

  lemma {:induction false} SomeNamedAt(kind: Kind, xs: seq<Json>, n: string)
    requires exists j :: 0 <= j < |xs| && Named(kind, xs[j], n)
    ensures Has(kind, xs, n)
  {
    if !Named(kind, xs[0], n) {
      var j :| 0 <= j < |xs| && Named(kind, xs[j], n);
      assert xs[1..][j - 1] == xs[j];
      SomeNamedAt(kind, xs[1..], n);
    }
  }

  /** Writing below a handle keeps it alive. */
  lemma PutBelow(doc: Json, loc: Loc, q: Loc, x: Json)
    requires Holds(doc, loc) && q != [] && q[0].Key? && CanPut(doc, loc + q)
    ensures Holds(Put(doc, loc + q, x), loc)
    decreases |loc|
  {
    if loc == [] {
      assert loc + q == q;
    } else {
      assert (loc + q)[1..] == loc[1..] + q && (loc + q)[0] == loc[0];
      match loc[0]
      case Key(k) => PutBelow(doc.fields[k], loc[1..], q, x);
      case At(i) => PutBelow(doc.items[i], loc[1..], q, x);
    }
  }

  lemma KeepsHandle(doc: Json, loc: Loc, kind: Kind, path: seq<string>, op: Op)
    requires Holds(doc, loc)
    ensures Holds(Apply(doc, loc + Keys(path), kind, op).doc, loc)
  {
    WalkSplit(doc, loc, Keys(path));
    var t := loc + Keys(path);
    if path != [] && CanPut(doc, t) {
      PutBelow(doc, loc, Keys(path), Slice(op, Listed(Run(kind, op, Read(doc, t, kind)))));
    }
  }

  lemma {:induction false} RootAt(xs: seq<Json>, i: nat)
    requires i < |xs| && Named(EnvVar, xs[i], BINDING_ROOT_VAR)
    requires forall j :: 0 <= j < i ==> !Named(EnvVar, xs[j], BINDING_ROOT_VAR)
    ensures RootOf(xs) == StringOf(xs[i].fields, "value") && Has(EnvVar, xs, BINDING_ROOT_VAR)
    decreases i
  {
    if i > 0 { RootAt(xs[1..], i - 1); }
  }

  lemma {:induction false} RootAppended(xs: seq<Json>)
    requires forall j :: 0 <= j < |xs| ==> !Named(EnvVar, xs[j], BINDING_ROOT_VAR)
    ensures RootOf(xs + [ROOT_ENTRY]) == BINDING_ROOT
  {
    if xs != [] {
      assert (xs + [ROOT_ENTRY])[1..] == xs[1..] + [ROOT_ENTRY];
      RootAppended(xs[1..]);
    }
  }

  // ---- Handles stay alive ----

  /** No list that is edited lies at or above a container, so that a location
      keeps denoting the container's map. */
  ghost predicate Anchored(doc: Json, sel: Selection)
  {
    var pods := Pods.BindablePods(doc, sel);
    doc.Obj? && (pods.Some? ==> AnchoredAll(sel, pods.value))
  }

  ghost predicate AnchoredAll(sel: Selection, cs: seq<MetaContainer>)
  {
    forall c, d :: c in cs && d in cs ==>
      && !(EnvT(d).loc <= c.loc) && !(EnvFromT(d).loc <= c.loc) && !(MountT(d).loc <= c.loc)
      && !(VolumeT(sel).loc <= c.loc)
  }

  lemma HoldsKept(doc: Json, t: Loc, kind: Kind, op: Op, loc: Loc)
    requires Holds(doc, loc) && !(t <= loc)
    ensures Holds(Apply(doc, t, kind, op).doc, loc)
  {
    if CanPut(doc, t) {
      var x := Slice(op, Listed(Run(kind, op, Read(doc, t, kind))));
      if loc <= t {
        var q := t[|loc|..];
        assert t == loc + q;
        CanPutSplit(doc, loc, q);
        PutBelow(doc, loc, q, x);
      } else {
        PutOther(doc, t, x, loc);
      }
    }
  }

  lemma {:induction false} DropsKeep(doc: Json, t: Target, names: seq<string>, loc: Loc)
    requires Holds(doc, loc) && !(t.loc <= loc)
    ensures Holds(DropAll(doc, t, names), loc) && Holds(DropEach(doc, t, names).doc, loc)
    decreases |names|
  {
    if names != [] {
      HoldsKept(doc, t.loc, t.kind, Drop(names[0]), loc);
      DropsKeep(Apply(doc, t.loc, t.kind, Drop(names[0])).doc, t, names[1..], loc);
    }
  }

  lemma StepKeeps(act: Action, b: Binding, doc: Json, d: MetaContainer, loc: Loc)
    requires Holds(doc, loc)
    requires !(EnvT(d).loc <= loc) && !(EnvFromT(d).loc <= loc) && !(MountT(d).loc <= loc)
    ensures Holds(ContainerStep(act, b, doc, d).doc, loc)
  {
    match act
    case AsEnv =>
      var t := EnvFromT(d);
      HoldsKept(doc, t.loc, t.kind, Drop(b.secret), loc);
      var e := Apply(doc, t.loc, t.kind, Drop(b.secret)).doc;
      HoldsKept(e, t.loc, t.kind, Append([SecretRefEntry(b.secret)]), loc);
      var o := if b.files then Outcome(doc, true) else AddEnvFrom(doc, t, b.secret);
      DropsKeep(o.doc, EnvT(d), Variables(b), loc);
      HoldsKept(DropAll(o.doc, EnvT(d), Variables(b)), EnvT(d).loc, EnvVar, Append(EnvEntries(b)), loc);
    case AsFiles =>
      HoldsKept(doc, EnvT(d).loc, EnvVar, Ensure(BINDING_ROOT_VAR, ROOT_ENTRY), loc);
      var o := Apply(doc, EnvT(d).loc, EnvVar, Ensure(BINDING_ROOT_VAR, ROOT_ENTRY));
      var path := JoinPath(RootOf(Listed(Read(o.doc, EnvT(d).loc, EnvVar))), b.name);
      HoldsKept(o.doc, MountT(d).loc, VolumeMount, Upsert(b.name, MountEntry(b.name, path)), loc);
    case Removal =>
      DropsKeep(doc, EnvT(d), SecretKeys(b), loc);
      var o := DropEach(doc, EnvT(d), SecretKeys(b));
      HoldsKept(o.doc, EnvFromT(d).loc, EnvFrom, Drop(b.secret), loc);
      HoldsKept(Apply(o.doc, EnvFromT(d).loc, EnvFrom, Drop(b.secret)).doc, MountT(d).loc, VolumeMount,
        Drop(b.name), loc);
  }

  lemma FromKeeps(b: Binding, doc: Json, c: MetaContainer)
    requires Holds(doc, c.loc)
    ensures Holds(AddEnvFrom(doc, EnvFromT(c), b.secret).doc, c.loc)
  {
    KeepsHandle(doc, c.loc, EnvFrom, c.envFrom, Drop(b.secret));
    KeepsHandle(Apply(doc, EnvFromT(c).loc, EnvFrom, Drop(b.secret)).doc, c.loc, EnvFrom, c.envFrom,
      Append([SecretRefEntry(b.secret)]));
  }

  /** A successful MountPath leaves the environment it computed with. */
  lemma RootReads(doc: Json, t: Loc)
    ensures var o := Apply(doc, t, EnvVar, Ensure(BINDING_ROOT_VAR, ROOT_ENTRY));
      o.ok ==> Read(o.doc, t, EnvVar) == Run(EnvVar, Ensure(BINDING_ROOT_VAR, ROOT_ENTRY), Read(doc, t, EnvVar))
  {
    var o := Apply(doc, t, EnvVar, Ensure(BINDING_ROOT_VAR, ROOT_ENTRY));
    if o.ok && CanPut(doc, t) {
      SoundRoot();
      var _ := ApplyEffect(doc, t, EnvVar, Ensure(BINDING_ROOT_VAR, ROOT_ENTRY));
    }
  }

  lemma VolumeKeeps(doc: Json, sel: Selection, cs: seq<MetaContainer>, op: Op)
    requires AnchoredAll(sel, cs) && forall c :: c in cs ==> Holds(doc, c.loc)
    ensures forall c :: c in cs ==> Holds(Apply(doc, VolumeT(sel).loc, Volume, op).doc, c.loc)
    ensures [] + Keys(sel.mapping.volume) == VolumeT(sel).loc
  {
    forall c | c in cs ensures Holds(Apply(doc, VolumeT(sel).loc, Volume, op).doc, c.loc) {
      HoldsKept(doc, VolumeT(sel).loc, Volume, op, c.loc);
    }
  }

  lemma {:induction false} HandlesHold(doc: Json, sel: Selection, wc: WorkloadContainer, ls: seq<Loc>)
    requires forall l :: l in ls ==> Holds(doc, l)
    ensures forall c :: c in Handles(doc, sel, wc, ls) ==> Holds(doc, c.loc)
  {
    if ls != [] { HandlesHold(doc, sel, wc, ls[1..]); }
  }

  lemma LocatedHold(doc: Json, l: Loc)
    requires Located(doc, l).Some?
    ensures forall m :: m in Located(doc, l).value ==> Holds(doc, m)
  {
    forall m | m in Located(doc, l).value ensures Holds(doc, m) {
      if m != l {
        var i :| 0 <= i < |Located(doc, l).value| && Located(doc, l).value[i] == m;
        WalkSplit(doc, l, [At(i)]);
      }
    }
  }

  lemma {:induction false} ResultsHold(doc: Json, sel: Selection, wc: WorkloadContainer, ls: seq<Loc>)
    requires FromResults(doc, sel, wc, ls).Some?
    ensures forall c :: c in FromResults(doc, sel, wc, ls).value ==> Holds(doc, c.loc)
  {
    if ls != [] {
      LocatedHold(doc, ls[0]);
      HandlesHold(doc, sel, wc, Located(doc, ls[0]).value);
      ResultsHold(doc, sel, wc, ls[1..]);
    }
  }

  lemma {:induction false} PathsHold(doc: Json, sel: Selection, wcs: seq<WorkloadContainer>)
    requires FromPaths(doc, sel, wcs).Some?
    ensures forall c :: c in FromPaths(doc, sel, wcs).value ==> Holds(doc, c.loc)
  {
    if wcs != [] {
      var ls := Eval(doc, [[]], wcs[0].path);
      if ls.Some? { ResultsHold(doc, sel, wcs[0], ls.value); }
      PathsHold(doc, sel, wcs[1..]);
    }
  }

  /** The handles that are handed out are alive. */
  lemma PodsHold(doc: Json, sel: Selection)
    ensures Pods.BindablePods(doc, sel).Some? ==>
      forall c :: c in Pods.BindablePods(doc, sel).value ==> Holds(doc, c.loc)
  {
    if Pods.BindablePods(doc, sel).Some? { PathsHold(doc, sel, sel.mapping.containers); }
  }

  // ---- Accumulating results ----

  function Then(acc: seq<MetaContainer>, r: Option<seq<MetaContainer>>): Option<seq<MetaContainer>>
  {
    if r.None? then None else Some(acc + r.value)
  }

  lemma ThenThen(a: seq<MetaContainer>, b: seq<MetaContainer>, r: Option<seq<MetaContainer>>)
    ensures Then(a, Then(b, r)) == Then(a + b, r)
  {
    if r.Some? { assert a + (b + r.value) == a + b + r.value; }
  }

  lemma ThenNothing(r: Option<seq<MetaContainer>>)
    ensures Then([], r) == r
  {
    if r.Some? { assert [] + r.value == r.value; }
  }

  // ---- Reading a list ----

  /** NestedResources: the list at a path of a map, in either representation,
      provided that every element is a map of the given type. */
  method NestedResources(kind: Kind, resource: Json, path: seq<string>)
    returns (entries: seq<Json>, found: bool, ok: bool)
    ensures ok <==> !Read(resource, Keys(path), kind).Bad?
    ensures ok ==>
      entries == Listed(Read(resource, Keys(path), kind)) && (found <==> !Read(resource, Keys(path), kind).Absent?)
  {
    entries := [];
    var val := Walk(resource, Keys(path));
    if !val.Found? {
      return [], false, !val.Failed?;
    }
    found := true;
    if val.value.Nil? { return [], true, true; }
    if val.value.List? {
      var i := 0;
      while i < |val.value.items|
        invariant 0 <= i <= |val.value.items|
        invariant entries == val.value.items[..i] && AllDecode(kind, entries)
      {
        var item := val.value.items[i];
        if !Decodes(kind, item) {
          return [], true, false;
        }
        entries := entries + [item];
        i := i + 1;
      }
      return entries, true, true;
    }
    return [], true, false;
  }

  lemma ReplaceNothing(kind: Kind, name: string, u: Json)
    ensures Replace(kind, [], name, u) == []
  {
  }

  lemma ReplaceNobody(kind: Kind, xs: seq<Json>, name: string, u: Json)
    requires forall j :: 0 <= j < |xs| ==> !Named(kind, xs[j], name)
    ensures Replace(kind, xs, name, u) == xs
  {
    hide Named;
  }

  lemma ReplaceMore(kind: Kind, xs: seq<Json>, i: nat, name: string, u: Json)
    requires i < |xs|
    ensures Replace(kind, xs[..i + 1], name, u) ==
      Replace(kind, xs[..i], name, u) + [if Named(kind, xs[i], name) then u else xs[i]]
  {
    hide Named;
  }

  /** The loop over existing entries: those of the name are replaced, or the
      entry is appended. */
  method ReplaceOrAppend(kind: Kind, entries: seq<Json>, name: string, u: Json) returns (updated: seq<Json>)
    ensures updated == Upserted(kind, entries, name, u)
  {
    hide Named, Count, Replace;
    assert Replace(kind, entries[..0], name, u) == [] by { ReplaceNothing(kind, name, u); }
    updated := [];
    var exist, i := false, 0;
    while i < |entries|
      invariant 0 <= i <= |entries|
      invariant updated == Replace(kind, entries[..i], name, u)
      invariant exist ==> exists j :: 0 <= j < i && Named(kind, entries[j], name)
      invariant !exist ==> forall j :: 0 <= j < i ==> !Named(kind, entries[j], name)
    {
      ReplaceMore(kind, entries, i, name, u);
      if Named(kind, entries[i], name) {
        exist := true;
        updated := updated + [u];
      } else {
        updated := updated + [entries[i]];
      }
      i := i + 1;
    }
    assert entries[..i] == entries;
    if !exist {
      NoneNamedAt(kind, entries, name);
      ReplaceNobody(kind, entries, name, u);
      updated := updated + [u];
    } else {
      SomeNamedAt(kind, entries, name);
    }
  }

  class Application {
    /** The document as fetched. */
    const persisted: Json
    const sel: Selection
    const secretPath: string
    /** The working copy, and whether it was made. */
    var doc: Json
    var copied: bool

    constructor (persisted: Json, sel: Selection, secretPath: string)
      ensures this.persisted == persisted && this.sel == sel && this.secretPath == secretPath
      ensures doc == persisted && !copied
    {
      this.persisted, this.sel, this.secretPath := persisted, sel, secretPath;
      doc, copied := persisted, false;
    }

    /** IsUpdated: even a rewrite of equal entries counts, because it leaves a
        list in the other representation, and so does a missing copy. */
    predicate IsUpdated()
      reads this
    {
      !copied || doc != persisted
    }

    /** setSlice through a handle: an atomic write, although maps are created on the way. */
    method SetSlice(loc: Loc, resources: Json, path: seq<string>) returns (ok: bool)
      requires path != [] && Holds(doc, loc)
      modifies this`doc
      ensures Outcome(doc, ok) == Entries.SetSlice(old(doc), loc + Keys(path), resources)
    {
      var n := |path| - 1;
      ghost var full := loc + Keys(path);
      KeysStep(path, n);
      assert path[..n + 1] == path && full == loc + Keys(path[..n]) + [Key(path[n])];
      if n > 0 {
        var parent := Walk(doc, loc + Keys(path[..n]));
        CanPutSplit(doc, loc + Keys(path[..n]), [Key(path[n])]);
        if parent.Failed? {
          return false;
        } else if parent.Missing? {
          var i := 0;
          assert loc + Keys(path[..0]) == loc;
          while i < n
            invariant 0 <= i <= n
            invariant Holds(doc, loc + Keys(path[..i]))
            invariant CanPut(doc, full) <==> CanPut(old(doc), full)
            invariant Put(doc, full, resources) == Put(old(doc), full, resources)
            invariant doc == old(doc) || Walk(doc, loc + Keys(path[..i])) == Found(EMPTY)
          {
            var here := loc + Keys(path[..i]);
            var current := Walk(doc, here).value.fields;
            Descent(doc, loc, path, i, resources);
            if path[i] !in current {
              doc := Put(doc, here + [Key(path[i])], EMPTY);
            } else if !current[path[i]].Obj? {
              return false;
            }
            i := i + 1;
          }
          CanPutSplit(doc, loc + Keys(path[..n]), [Key(path[n])]);
        } else if !parent.value.Obj? {
          return false;
        }
      } else {
        assert loc + Keys(path[..0]) == loc;
        CanPutSplit(doc, loc, [Key(path[0])]);
      }
      doc := Put(doc, loc + Keys(path), resources);
      return true;
    }

    /** NestedResources through a handle. */
    method ReadList(loc: Loc, kind: Kind, path: seq<string>) returns (entries: seq<Json>, found: bool, ok: bool)
      requires Holds(doc, loc)
      ensures ok <==> !Read(doc, loc + Keys(path), kind).Bad?
      ensures ok ==>
        && path != [] && entries == Listed(Read(doc, loc + Keys(path), kind))
        && (found <==> !Read(doc, loc + Keys(path), kind).Absent?)
    {
      entries, found, ok := NestedResources(kind, Walk(doc, loc).value, path);
      WalkSplit(doc, loc, Keys(path));
    }

    /** addRaw. */
    method AddRaw(loc: Loc, kind: Kind, path: seq<string>, data: seq<Json>) returns (ok: bool)
      requires Holds(doc, loc)
      modifies this`doc
      ensures Outcome(doc, ok) == Apply(old(doc), loc + Keys(path), kind, Append(data))
    {
      var entries, found, good := ReadList(loc, kind, path);
      if !good { return false; }
      var nested := if !found then data else entries + data;
      assert [] + data == data;
      ok := SetSlice(loc, if nested == [] then Nil else List(nested, true), path);
    }

    /** RemoveEnvVars, RemoveEnvFromVars, RemoveVolumeMount and RemoveVolume:
        the first entry of that name is cut out. */
    method Remove(loc: Loc, kind: Kind, path: seq<string>, name: string) returns (ok: bool)
      requires Holds(doc, loc)
      modifies this`doc
      ensures Outcome(doc, ok) == Apply(old(doc), loc + Keys(path), kind, Drop(name))
    {
      var entries, found, good := ReadList(loc, kind, path);
      if !good { return false; }
      if !found { return true; }
      var i := 0;
      while i < |entries|
        invariant 0 <= i <= |entries| && doc == old(doc)
        invariant forall j :: 0 <= j < i ==> !Named(kind, entries[j], name)
      {
        if Named(kind, entries[i], name) {
          DropAt(kind, entries, i, name);
          ok := SetSlice(loc, List(entries[..i] + entries[i + 1..], true), path);
          return;
        }
        i := i + 1;
      }
      NoneNamedAt(kind, entries, name);
      return true;
    }

    /** AddVolumeMount and AddVolume: every entry of that name is replaced, or
        the entry is appended. */
    method AddOrReplace(loc: Loc, kind: Kind, path: seq<string>, name: string, u: Json) returns (ok: bool)
      requires Holds(doc, loc)
      modifies this`doc
      ensures Outcome(doc, ok) == Apply(old(doc), loc + Keys(path), kind, Upsert(name, u))
    {
      var entries, found, good := ReadList(loc, kind, path);
      if !good { return false; }
      var updated := [u];
      if found { updated := ReplaceOrAppend(kind, entries, name, u); }
      assert updated == Upserted(kind, entries, name, u);
      ok := SetSlice(loc, List(updated, true), path);
    }

    /** AddEnvVars: earlier variables of the same names go, errors ignored, and
        the new ones are appended. */
    method AddEnvVars(loc: Loc, path: seq<string>, b: Binding) returns (ok: bool)
      requires Holds(doc, loc)
      modifies this`doc
      ensures Outcome(doc, ok) == Projection.AddEnvVars(old(doc), Target(loc + Keys(path), EnvVar), b)
    {
      ghost var t := Target(loc + Keys(path), EnvVar);
      var names := Variables(b);
      var i := 0;
      while i < |names|
        invariant 0 <= i <= |names| && Holds(doc, loc)
        invariant DropAll(doc, t, names[i..]) == DropAll(old(doc), t, names)
      {
        KeepsHandle(doc, loc, EnvVar, path, Drop(names[i]));
        assert names[i..][1..] == names[i + 1..];
        var _ := Remove(loc, EnvVar, path, names[i]);
        i := i + 1;
      }
      var data := [];
      var k := 0;
      while k < |b.env|
        invariant 0 <= k <= |b.env| && data == EnvEntries(b)[..k]
      {
        data := data + [EnvEntry(b.env[k], b.secret)];
        k := k + 1;
      }
      assert data == EnvEntries(b);
      ok := AddRaw(loc, EnvVar, path, data);
    }

    /** AddEnvFromVar. */
    method AddEnvFromVar(loc: Loc, path: seq<string>, secret: string) returns (ok: bool)
      requires Holds(doc, loc)
      modifies this`doc
      ensures Outcome(doc, ok) == AddEnvFrom(old(doc), Target(loc + Keys(path), EnvFrom), secret)
    {
      KeepsHandle(doc, loc, EnvFrom, path, Drop(secret));
      var _ := Remove(loc, EnvFrom, path, secret);
      ok := AddRaw(loc, EnvFrom, path, [SecretRefEntry(secret)]);
    }

    /** MountPath: the mount root of the container, set if it has none. */
    method MountPath(loc: Loc, path: seq<string>, name: string) returns (mount: string, ok: bool)
      requires Holds(doc, loc)
      modifies this`doc
      ensures Outcome(doc, ok) == Apply(old(doc), loc + Keys(path), EnvVar, Ensure(BINDING_ROOT_VAR, ROOT_ENTRY))
      ensures ok ==> mount == JoinPath(RootOf(Listed(Run(EnvVar, Ensure(BINDING_ROOT_VAR, ROOT_ENTRY),
                                         Read(old(doc), loc + Keys(path), EnvVar)))), name)
    {
      var envs, found, good := ReadList(loc, EnvVar, path);
      if !good { return "", false; }
      var i := 0;
      while i < |envs|
        invariant 0 <= i <= |envs| && doc == old(doc)
        invariant forall j :: 0 <= j < i ==> !Named(EnvVar, envs[j], BINDING_ROOT_VAR)
      {
        if Named(EnvVar, envs[i], BINDING_ROOT_VAR) {
          RootAt(envs, i);
          return JoinPath(StringOf(envs[i].fields, "value"), name), true;
        }
        i := i + 1;
      }
      NoneNamedAt(EnvVar, envs, BINDING_ROOT_VAR);
      RootAppended(envs);
      ok := SetSlice(loc, List(envs + [ROOT_ENTRY], true), path);
      mount := JoinPath(BINDING_ROOT, name);
    }

    /** BindablePods. */
    method BindablePods() returns (r: Option<seq<MetaContainer>>)
      ensures r == Pods.BindablePods(doc, sel)
    {
      var filtered: seq<MetaContainer> := [];
      var wcs := sel.mapping.containers;
      var i := 0;
      assert wcs[0..] == wcs;
      assert Then([], FromPaths(doc, sel, wcs)) == FromPaths(doc, sel, wcs) by {
        ThenNothing(FromPaths(doc, sel, wcs));
      }
      while i < |wcs|
        invariant 0 <= i <= |wcs|
        invariant Then(filtered, FromPaths(doc, sel, wcs[i..])) == FromPaths(doc, sel, wcs)
      {
        assert wcs[i..][0] == wcs[i] && wcs[i..][1..] == wcs[i + 1..];
        var found := Eval(doc, [[]], wcs[i].path);
        if found.Some? {
          var more := MapsAmong(wcs[i], found.value);
          if more.None? { return None; }
          ThenThen(filtered, more.value, FromPaths(doc, sel, wcs[i + 1..]));
          filtered := filtered + more.value;
        } else {
          ThenNothing(FromPaths(doc, sel, wcs[i + 1..]));
        }
        i := i + 1;
      }
      assert wcs[i..] == [] && filtered + [] == filtered;
      r := if filtered == [] then None else Some(filtered);
    }

    /** The containers behind the results of one path. */
    method MapsAmong(wc: WorkloadContainer, ls: seq<Loc>) returns (r: Option<seq<MetaContainer>>)
      ensures r == FromResults(doc, sel, wc, ls)
    {
      var filtered: seq<MetaContainer> := [];
      var i := 0;
      assert ls[0..] == ls;
      ThenNothing(FromResults(doc, sel, wc, ls));
      while i < |ls|
        invariant 0 <= i <= |ls|
        invariant Then(filtered, FromResults(doc, sel, wc, ls[i..])) == FromResults(doc, sel, wc, ls)
      {
        assert ls[i..][0] == ls[i] && ls[i..][1..] == ls[i + 1..];
        var maps := Located(doc, ls[i]);
        if maps.None? { return None; }
        var more := Filtered(wc, maps.value);
        ThenThen(filtered, more, FromResults(doc, sel, wc, ls[i + 1..]));
        filtered := filtered + more;
        i := i + 1;
      }
      assert ls[i..] == [] && filtered + [] == filtered;
      r := Some(filtered);
    }

    /** Handles on the maps whose name is asked for. */
    method Filtered(wc: WorkloadContainer, maps: seq<Loc>) returns (r: seq<MetaContainer>)
      ensures r == Handles(doc, sel, wc, maps)
    {
      hide NameAt;
      r := [];
      var k := 0;
      assert maps[0..] == maps && r + Handles(doc, sel, wc, maps) == Handles(doc, sel, wc, maps);
      while k < |maps|
        invariant 0 <= k <= |maps|
        invariant r + Handles(doc, sel, wc, maps[k..]) == Handles(doc, sel, wc, maps)
      {
        assert maps[k..][0] == maps[k] && maps[k..][1..] == maps[k + 1..];
        ghost var rest := Handles(doc, sel, wc, maps[k + 1..]);
        ghost var one := if sel.names == {} || NameAt(doc, maps[k], wc.name) in sel.names
                         then [MetaContainer(maps[k], wc.env, wc.envFrom, wc.volumeMounts)] else [];
        assert Handles(doc, sel, wc, maps[k..]) == one + rest;
        assert r + (one + rest) == (r + one) + rest;
        assert r + [] == r;
        if sel.names == {} || NameAt(doc, maps[k], wc.name) in sel.names {
          r := r + [MetaContainer(maps[k], wc.env, wc.envFrom, wc.volumeMounts)];
        }
        k := k + 1;
      }
      assert maps[k..] == [] && r + [] == r;
    }

    method EnvStep(b: Binding, c: MetaContainer) returns (ok: bool)
      requires Holds(doc, c.loc)
      modifies this`doc
      ensures Outcome(doc, ok) == ContainerStep(AsEnv, b, old(doc), c)
    {
      if !b.files {
        FromKeeps(b, doc, c);
        ok := AddEnvFromVar(c.loc, c.envFrom, b.secret);
        if !ok { return; }
      }
      ok := AddEnvVars(c.loc, c.env, b);
    }

    method FilesStep(b: Binding, c: MetaContainer) returns (ok: bool)
      requires Holds(doc, c.loc)
      modifies this`doc
      ensures Outcome(doc, ok) == ContainerStep(AsFiles, b, old(doc), c)
    {
      KeepsHandle(doc, c.loc, EnvVar, c.env, Ensure(BINDING_ROOT_VAR, ROOT_ENTRY));
      RootReads(doc, EnvT(c).loc);
      var mount;
      mount, ok := MountPath(c.loc, c.env, b.name);
      if ok { ok := AddOrReplace(c.loc, VolumeMount, c.volumeMount, b.name, MountEntry(b.name, mount)); }
    }

    method RemovalStep(b: Binding, c: MetaContainer) returns (ok: bool)
      requires Holds(doc, c.loc)
      modifies this`doc
      ensures Outcome(doc, ok) == ContainerStep(Removal, b, old(doc), c)
    {
      var keys := SecretKeys(b);
      var i := 0;
      assert keys[0..] == keys;
      while i < |keys|
        invariant 0 <= i <= |keys| && Holds(doc, c.loc)
        invariant DropEach(doc, EnvT(c), keys[i..]) == DropEach(old(doc), EnvT(c), keys)
      {
        KeepsHandle(doc, c.loc, EnvVar, c.env, Drop(keys[i]));
        assert keys[i..][1..] == keys[i + 1..];
        ok := Remove(c.loc, EnvVar, c.env, keys[i]);
        if !ok { return; }
        i := i + 1;
      }
      assert keys[i..] == [];
      KeepsHandle(doc, c.loc, EnvFrom, c.envFrom, Drop(b.secret));
      ok := Remove(c.loc, EnvFrom, c.envFrom, b.secret);
      if !ok { return; }
      ok := Remove(c.loc, VolumeMount, c.volumeMount, b.name);
    }

    /** The loop over the containers of an application, shared by the handlers. */
    method ForEachContainer(act: Action, b: Binding, cs: seq<MetaContainer>) returns (ok: bool)
      requires AnchoredAll(sel, cs) && forall c :: c in cs ==> Holds(doc, c.loc)
      modifies this`doc
      ensures Outcome(doc, ok) == Sweep(act, b, old(doc), cs)
    {
      hide ContainerStep;
      var i := 0;
      assert cs[0..] == cs;
      while i < |cs|
        invariant 0 <= i <= |cs| && forall c :: c in cs ==> Holds(doc, c.loc)
        invariant Sweep(act, b, doc, cs[i..]) == Sweep(act, b, old(doc), cs)
      {
        var c := cs[i];
        assert cs[i..][0] == c && cs[i..][1..] == cs[i + 1..];
        forall d | d in cs ensures Holds(ContainerStep(act, b, doc, c).doc, d.loc) {
          StepKeeps(act, b, doc, c, d.loc);
        }
        match act {
          case AsEnv => ok := EnvStep(b, c);
          case AsFiles => ok := FilesStep(b, c);
          case Removal => ok := RemovalStep(b, c);
        }
        if !ok { return; }
        i := i + 1;
      }
      assert cs[i..] == [];
      return true;
    }

    /** BindingsAsEnv on this application. */
    method BindAsEnv(b: Binding) returns (ok: bool)
      requires Anchored(doc, sel)
      modifies this
      ensures Outcome(doc, ok) == AsEnvDoc(b, old(doc), sel, secretPath != "")
      ensures copied == (old(copied) || !b.files || b.env != [])
    {
      if b.files && b.env == [] { return true; }
      copied := true;
      var pods := BindablePods();
      if pods.None? { return secretPath != ""; }
      PodsHold(doc, sel);
      ok := ForEachContainer(AsEnv, b, pods.value);
    }

    /** BindingsAsFiles on this application. */
    method BindAsFiles(b: Binding) returns (ok: bool)
      requires Anchored(doc, sel)
      modifies this
      ensures Outcome(doc, ok) == AsFilesDoc(b, old(doc), sel, secretPath != "")
      ensures copied == (old(copied) || b.files)
    {
      if !b.files { return true; }
      copied := true;
      var pods := BindablePods();
      if pods.None? { return secretPath != ""; }
      PodsHold(doc, sel);
      VolumeKeeps(doc, sel, pods.value, Upsert(b.name, VolumeEntry(b)));
      ok := AddOrReplace([], Volume, sel.mapping.volume, b.name, VolumeEntry(b));
      if ok { ok := ForEachContainer(AsFiles, b, pods.value); }
    }

    /** Unbind on this application. */
    method Unbind(b: Binding) returns (panics: bool, ok: bool)
      requires Anchored(doc, sel)
      modifies this
      ensures UnbindDoc(b, old(doc), sel) ==
        if panics then UnbindPanics(doc) else if ok then UnbindDone(doc) else UnbindFailed(doc)
      ensures copied
    {
      panics, ok := false, false;
      copied := true;
      var pods := BindablePods();
      if pods.None? { return true, false; }
      PodsHold(doc, sel);
      VolumeKeeps(doc, sel, pods.value, Drop(b.name));
      ok := Remove([], Volume, sel.mapping.volume, b.name);
      if ok { ok := ForEachContainer(Removal, b, pods.value); }
    }
  }
}
