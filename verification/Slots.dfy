/**
 The three lists of one container under projection and removal. A sweep over
 all containers acts on each container's own lists only, however often and in
 whatever order the container is visited.
 */
module Slots {

  import opened Documents
  import opened Entries
  import opened Pods
  import opened Views
  import opened Projection

  datatype Slots = Slots(env: Slot, envFrom: Slot, mounts: Slot)

  function SlotsOf(v: View, c: MetaContainer): Slots
    requires Covers(v, c)
  {
    Slots(v[EnvT(c)], v[EnvFromT(c)], v[MountT(c)])
  }

  function TargetsOf(c: MetaContainer): set<Target>
  {
    {EnvT(c), EnvFromT(c), MountT(c)}
  }

  function DropNames(kind: Kind, s: Slot, names: seq<string>): Slot
    decreases |names|
  {
    if names == [] then s else DropNames(kind, Run(kind, Drop(names[0]), s), names[1..])
  }

  /** The handler's work on one container, as a function of its lists. */
  function SlotStep(act: Action, b: Binding, s: Slots): Slots
  {
    match act
    case AsEnv =>
      var from := if b.files then s.envFrom
                  else Run(EnvFrom, Append([SecretRefEntry(b.secret)]), Run(EnvFrom, Drop(b.secret), s.envFrom));
      var env := Run(EnvVar, Append(EnvEntries(b)), DropNames(EnvVar, s.env, Variables(b)));
      Slots(env, from, s.mounts)
    case AsFiles =>
      var env := Run(EnvVar, Ensure(BINDING_ROOT_VAR, ROOT_ENTRY), s.env);
      var path := JoinPath(RootOf(Listed(env)), b.name);
      Slots(env, s.envFrom, Run(VolumeMount, Upsert(b.name, MountEntry(b.name, path)), s.mounts))
    case Removal =>
      Slots(DropNames(EnvVar, s.env, SecretKeys(b)), Run(EnvFrom, Drop(b.secret), s.envFrom),
            Run(VolumeMount, Drop(b.name), s.mounts))
  }

  function Repeat(act: Action, b: Binding, s: Slots, n: nat): Slots
    decreases n
  {
    if n == 0 then s else Repeat(act, b, SlotStep(act, b, s), n - 1)
  }

  lemma {:induction false} DropAllSlot(v: View, t: Target, names: seq<string>)
    requires t in v
    ensures DropAllV(v, t, names)[t] == DropNames(t.kind, v[t], names)
    decreases |names|
  {
    if names != [] { DropAllSlot(Edit(v, t, Drop(names[0])), t, names[1..]); }
  }

  lemma StepSlots(act: Action, b: Binding, v: View, c: MetaContainer)
    requires Covers(v, c)
    ensures SlotsOf(StepV(act, b, v, c), c) == SlotStep(act, b, SlotsOf(v, c))
    ensures forall u :: u in v && u !in TargetsOf(c) ==> StepV(act, b, v, c)[u] == v[u]
  {
    match act
    case AsEnv =>
      var w := if b.files then v
               else Edit(Edit(v, EnvFromT(c), Drop(b.secret)), EnvFromT(c), Append([SecretRefEntry(b.secret)]));
      DropAllVKeeps(w, EnvT(c), Variables(b));
      DropAllSlot(w, EnvT(c), Variables(b));
    case AsFiles =>
    case Removal =>
      DropAllVKeeps(v, EnvT(c), SecretKeys(b));
      DropAllSlot(v, EnvT(c), SecretKeys(b));
  }

  /** Two handles are one container, or share no list. */
  predicate Coherent(cs: seq<MetaContainer>)
  {
    forall c, d :: c in cs && d in cs && c != d ==> TargetsOf(c) !! TargetsOf(d)
  }

  lemma StepElsewhere(act: Action, b: Binding, v: View, d: MetaContainer, c: MetaContainer)
    requires Covers(v, d) && Covers(v, c) && TargetsOf(d) !! TargetsOf(c)
    ensures SlotsOf(StepV(act, b, v, d), c) == SlotsOf(v, c)
  {
    StepSlots(act, b, v, d);
    assert EnvT(c) in TargetsOf(c) && EnvFromT(c) in TargetsOf(c) && MountT(c) in TargetsOf(c);
  }

  /** How often a sweep visits a container. */
  function Visits(cs: seq<MetaContainer>, c: MetaContainer): (n: nat)
    ensures n > 0 <==> c in cs
  {
    if cs == [] then 0 else (if cs[0] == c then 1 else 0) + Visits(cs[1..], c)
  }

  lemma {:induction false} SweepSlots(act: Action, b: Binding, v: View, cs: seq<MetaContainer>, c: MetaContainer)
    requires CoversAll(v, cs) && Covers(v, c)
    requires forall d :: d in cs && d != c ==> TargetsOf(d) !! TargetsOf(c)
    ensures SlotsOf(SweepV(act, b, v, cs), c) == Repeat(act, b, SlotsOf(v, c), Visits(cs, c))
    decreases |cs|
  {
    hide StepV, SlotStep, TargetsOf, SlotsOf;
    if cs != [] {
      var w := StepV(act, b, v, cs[0]);
      CoversTail(v, w, cs);
      if cs[0] == c {
        StepSlots(act, b, v, c);
      } else {
        StepElsewhere(act, b, v, cs[0], c);
      }
      assert SweepV(act, b, v, cs) == SweepV(act, b, w, cs[1..]);
      SweepSlots(act, b, w, cs[1..], c);
    }
  }

  lemma {:induction false} SweepOther(act: Action, b: Binding, v: View, cs: seq<MetaContainer>, u: Target)
    requires CoversAll(v, cs) && u in v
    requires forall d :: d in cs ==> u !in TargetsOf(d)
    ensures SweepV(act, b, v, cs)[u] == v[u]
    decreases |cs|
  {
    hide StepV, SlotStep, TargetsOf;
    if cs != [] {
      var w := StepV(act, b, v, cs[0]);
      StepSlots(act, b, v, cs[0]);
      CoversTail(v, w, cs);
      SweepOther(act, b, w, cs[1..], u);
    }
  }

  // ---- List algebra ----

  predicate Unique(kind: Kind, xs: seq<Json>, name: string)
  {
    Count(kind, xs, name) <= 1
  }

  lemma {:induction false} CountConcat(kind: Kind, xs: seq<Json>, ys: seq<Json>, n: string)
    ensures Count(kind, xs + ys, n) == Count(kind, xs, n) + Count(kind, ys, n)
  {
    if xs == [] {
      assert xs + ys == ys;
    } else {
      assert (xs + ys)[0] == xs[0] && (xs + ys)[1..] == xs[1..] + ys;
      CountConcat(kind, xs[1..], ys, n);
    }
  }

  lemma CountOne(kind: Kind, e: Json, n: string)
    ensures Count(kind, [e], n) == if Named(kind, e, n) then 1 else 0
  {
    assert [e][1..] == [];
  }

  /** A removal takes one entry of that name away, if there is one. For a name
      that no entry shares with the removed one, nothing changes. */
  lemma {:induction false} CountDrop(kind: Kind, xs: seq<Json>, m: string, n: string)
    requires forall e :: Named(kind, e, m) && Named(kind, e, n) ==> m == n
    ensures Count(kind, DropFirst(kind, xs, m), n) ==
      if m == n && Count(kind, xs, n) > 0 then Count(kind, xs, n) - 1 else Count(kind, xs, n)
  {
    if xs != [] && !Named(kind, xs[0], m) {
      CountDrop(kind, xs[1..], m, n);
      var rest := DropFirst(kind, xs[1..], m);
      assert ([xs[0]] + rest)[0] == xs[0] && ([xs[0]] + rest)[1..] == rest;
    }
  }

  /** An entry carries at most one name. */
  lemma OneName(kind: Kind, m: string, n: string)
    ensures forall e :: Named(kind, e, m) && Named(kind, e, n) ==> m == n
  {
  }

  /** A list without the name is passed over. */
  lemma {:induction false} DropSkips(kind: Kind, xs: seq<Json>, ys: seq<Json>, name: string)
    requires !Has(kind, xs, name)
    ensures DropFirst(kind, xs + ys, name) == xs + DropFirst(kind, ys, name)
  {
    if xs == [] {
      assert xs + ys == ys;
    } else {
      assert (xs + ys)[1..] == xs[1..] + ys && (xs + ys)[0] == xs[0];
      DropSkips(kind, xs[1..], ys, name);
    }
  }

  lemma DropNone(kind: Kind, xs: seq<Json>, name: string)
    requires !Has(kind, xs, name)
    ensures DropFirst(kind, xs, name) == xs
  {
    DropSkips(kind, xs, [], name);
    assert xs + [] == xs;
  }

  /** Removing names one after the other, on the bare list. */
  function DropList(kind: Kind, xs: seq<Json>, names: seq<string>): seq<Json>
    decreases |names|
  {
    if names == [] then xs else DropList(kind, DropFirst(kind, xs, names[0]), names[1..])
  }

  lemma {:induction false} DropNamesIsList(kind: Kind, s: Slot, names: seq<string>)
    ensures s.Present? ==> DropNames(kind, s, names) == Present(DropList(kind, s.entries, names))
    ensures !s.Present? ==> DropNames(kind, s, names) == s && DropList(kind, [], names) == []
    decreases |names|
  {
    if names != [] {
      if s.Present? && !Has(kind, s.entries, names[0]) { DropNone(kind, s.entries, names[0]); }
      DropNamesIsList(kind, Run(kind, Drop(names[0]), s), names[1..]);
    }
  }

  /** Removing names takes away entries of those names only, at least one of
      each that is there. */
  lemma {:induction false} CountDropList(kind: Kind, xs: seq<Json>, names: seq<string>, n: string)
    ensures Count(kind, DropList(kind, xs, names), n) <= Count(kind, xs, n)
    ensures n in names && Has(kind, xs, n) ==> Count(kind, DropList(kind, xs, names), n) < Count(kind, xs, n)
    ensures n !in names ==> Count(kind, DropList(kind, xs, names), n) == Count(kind, xs, n)
    decreases |names|
  {
    if names != [] {
      OneName(kind, names[0], n);
      CountDrop(kind, xs, names[0], n);
      CountDropList(kind, DropFirst(kind, xs, names[0]), names[1..], n);
    }
  }

  lemma {:induction false} DropListNone(kind: Kind, xs: seq<Json>, names: seq<string>)
    requires forall n :: n in names ==> !Has(kind, xs, n)
    ensures DropList(kind, xs, names) == xs
    decreases |names|
  {
    if names != [] {
      DropNone(kind, xs, names[0]);
      DropListNone(kind, xs, names[1..]);
    }
  }

  /** Removing the names of a block of entries, in order, removes the block. */
  lemma {:induction false} DropOwn(kind: Kind, xs: seq<Json>, es: seq<Json>, zs: seq<Json>, names: seq<string>)
    requires |es| == |names| && forall i :: 0 <= i < |es| ==> Named(kind, es[i], names[i])
    requires forall n :: n in names ==> !Has(kind, xs, n)
    ensures DropList(kind, xs + es + zs, names) == xs + zs
    decreases |names|
  {
    if names == [] {
      assert xs + es + zs == xs + zs;
    } else {
      assert xs + es + zs == xs + (es + zs);
      DropSkips(kind, xs, es + zs, names[0]);
      assert (es + zs)[0] == es[0] && (es + zs)[1..] == es[1..] + zs;
      assert xs + (es[1..] + zs) == xs + es[1..] + zs;
      DropOwn(kind, xs, es[1..], zs, names[1..]);
    }
  }
}
