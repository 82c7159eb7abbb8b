/**
 What binding, rebinding and unbinding do to a stored workload.
 */
module Theorems {

  import opened Sequences
  import opened Documents
  import opened Entries
  import opened Pods
  import opened Views
  import opened Projection
  import opened Slots
  import opened Laws
  import opened Stored

  // ---- Convergence ----

  /** Reconciling again settles: the third pass stores what the second stored,
      and without environment mappings the second stores what the first did.
      With them, the second pass only reorders the environment. */
  lemma Converges(b: Binding, doc: Json, sel: Selection, lenient: bool)
    requires Workable(doc, sel) && CleanFor(AsEnv, b, doc, sel) && Distinct(Variables(b))
    ensures var one := Bound(b, doc, sel, lenient);
      var two := Bound(b, one, sel, lenient);
      && Bound(b, two, sel, lenient) == two
      && (b.env == [] ==> two == one)
      && Volumes(two, sel) == Volumes(one, sel)
      && forall c :: c in SiteOf(doc, sel).cs ==>
           var s, t := ContainerSlots(one, c), ContainerSlots(two, c);
           multiset(Listed(t.env)) == multiset(Listed(s.env)) && t.envFrom == s.envFrom && t.mounts == s.mounts
  {
    var ts := SiteTargets(SiteOf(doc, sel));
    var one := Bound(b, doc, sel, lenient);
    BoundKeepsClean(b, doc, sel, lenient);
    var two := Bound(b, one, sel, lenient);
    BoundKeepsClean(b, one, sel, lenient);
    var three := Bound(b, two, sel, lenient);
    BoundKeepsClean(b, two, sel, lenient);
    WorkableReady(doc, sel);
    forall c | c in SiteOf(doc, sel).cs
      ensures var s, t := ContainerSlots(one, c), ContainerSlots(two, c);
        && multiset(Listed(t.env)) == multiset(Listed(s.env)) && t.envFrom == s.envFrom && t.mounts == s.mounts
        && ContainerSlots(three, c) == t && (b.env == [] ==> t == s)
    {
      SlotsConverge(b, ContainerSlots(doc, c));
    }
    VolumeSettles(b, Volumes(doc, sel));
    FollowsTrans(doc, one, two, ts, {sel});
    FollowsTrans(doc, two, three, ts, {sel});
    SameStored(doc, two, three, sel, sel);
    if b.env == [] { SameStored(doc, one, two, sel, sel); }
  }

  lemma BoundKeepsClean(b: Binding, doc: Json, sel: Selection, lenient: bool)
    requires Workable(doc, sel) && CleanFor(AsEnv, b, doc, sel) && Distinct(Variables(b))
    ensures var d := Bound(b, doc, sel, lenient);
      && Workable(d, sel) && SiteOf(d, sel) == SiteOf(doc, sel) && CleanFor(AsEnv, b, d, sel)
      && Follows(doc, d, SiteTargets(SiteOf(doc, sel)), {sel})
      && (forall c :: c in SiteOf(doc, sel).cs ==> ContainerSlots(d, c) == BindSlots(b, ContainerSlots(doc, c)))
      && Volumes(d, sel) ==
           (if b.files then Run(Volume, Upsert(b.name, VolumeEntry(b)), Volumes(doc, sel)) else Volumes(doc, sel))
  {
    BoundSite(b, doc, sel, lenient);
    WorkableReady(doc, sel);
    forall c | c in SiteOf(doc, sel).cs ensures Clean(AsEnv, b, BindSlots(b, ContainerSlots(doc, c))) {
      CleanKept(b, ContainerSlots(doc, c));
    }
  }

  lemma VolumeSettles(b: Binding, s: Slot)
    ensures Run(Volume, Upsert(b.name, VolumeEntry(b)), Run(Volume, Upsert(b.name, VolumeEntry(b)), s))
         == Run(Volume, Upsert(b.name, VolumeEntry(b)), s)
  {
    EntryNames(b, "", b.name);
    UpsertUpsert(Volume, Listed(s), b.name, VolumeEntry(b), VolumeEntry(b));
  }

  // ---- Unbinding undoes binding ----

  ghost predicate UnusedIn(b: Binding, doc: Json, sel: Selection)
  {
    !Has(Volume, Listed(Volumes(doc, sel)), b.name) &&
    forall c :: c in SiteOf(doc, sel).cs ==> Unused(b, ContainerSlots(doc, c))
  }

  /** No container has two variables named by a secret key of the binding. */
  ghost predicate KeysUnique(b: Binding, doc: Json, sel: Selection)
  {
    forall c :: c in SiteOf(doc, sel).cs ==> AllUnique(Listed(ContainerSlots(doc, c).env), SecretKeys(b))
  }

  /** `d` is what `doc` was before binding `b`: every list in value and order
      (an absent list counts as an empty one) and everything else, except that
      the environment may keep the binding root, and comes back if and only if
      the binding is undoable there. */
  ghost predicate Restored(b: Binding, doc: Json, d: Json, sel: Selection)
  {
    && Workable(d, sel) && SiteOf(d, sel) == SiteOf(doc, sel) && OthersKept(doc, d, sel)
    && Listed(Volumes(d, sel)) == Listed(Volumes(doc, sel))
    && forall c :: c in SiteOf(doc, sel).cs ==> RestoredSlots(b, ContainerSlots(doc, c), ContainerSlots(d, c))
  }

  predicate RestoredSlots(b: Binding, s: Slots, r: Slots)
  {
    && Listed(r.mounts) == Listed(s.mounts) && Listed(r.envFrom) == Listed(s.envFrom)
    && (NonRoot(Listed(r.env)) == NonRoot(Listed(s.env)) <==> Undoable(b, Listed(s.env)))
    && (b.env == [] ==> Listed(r.env) == (if b.files then WithRoot(Listed(s.env)) else Listed(s.env)))
  }

  /** Nothing in the workload carries the binding's names, and no key of it
      names two variables. */
  ghost predicate Undisturbed(b: Binding, doc: Json, sel: Selection)
  {
    && Workable(doc, sel) && UnusedIn(b, doc, sel) && KeysUnique(b, doc, sel)
    && Distinct(Variables(b)) && (b.files || b.secret != "")
  }

  /** Binding and unbinding restores the workload. */
  lemma Undone(b: Binding, doc: Json, sel: Selection, lenient: bool)
    requires Undisturbed(b, doc, sel)
    ensures Restored(b, doc, Unbound(b, Bound(b, doc, sel, lenient), sel), sel)
  {
    var site := SiteOf(doc, sel);
    var ts := SiteTargets(site);
    WorkableReady(doc, sel);
    forall c | c in site.cs ensures Clean(AsEnv, b, ContainerSlots(doc, c)) {
      var s := ContainerSlots(doc, c);
      assert Unused(b, s);
    }
    var one := Bound(b, doc, sel, lenient);
    BoundSite(b, doc, sel, lenient);
    forall c | c in site.cs ensures Clean(Removal, b, ContainerSlots(one, c)) {
      assert Unused(b, ContainerSlots(doc, c));
      BoundOnce(b, ContainerSlots(doc, c));
    }
    UnboundSite(b, one, sel);
    forall c | c in site.cs
      ensures RestoredSlots(b, ContainerSlots(doc, c), SlotStep(Removal, b, ContainerSlots(one, c)))
    {
      assert Unused(b, ContainerSlots(doc, c));
      SlotsUndone(b, ContainerSlots(doc, c));
    }
    VolumesUndone(b, Volumes(doc, sel));
    assert VolumeT(sel) in ts;
    FollowsTrans(doc, one, Unbound(b, one, sel), ts, {sel});
  }

  lemma BoundUnique(b: Binding, s: Slots, n: string)
    requires Readable(s) && NoneNamed(Listed(s.env), Variables(b)) && Distinct(Variables(b))
    requires Unique(EnvVar, Listed(s.env), n)
    ensures Unique(EnvVar, Listed(BindSlots(b, s).env), n)
  {
    var xs, es, zs := Listed(s.env), EnvEntries(b), Listed(BindSlots(b, s).env);
    EnvNames(b);
    var ys := AddEnvResult(b, s.env);
    DropListNone(EnvVar, xs, Variables(b));
    if b.files { BindEnvIs(b, s); }
    CountBound(b, xs, n);
  }

  /** A fresh binding is in the lists once. */
  lemma BoundOnce(b: Binding, s: Slots)
    requires Readable(s) && Unused(b, s) && (b.files || b.secret != "")
    requires AllUnique(Listed(s.env), SecretKeys(b)) && Distinct(Variables(b))
    ensures Clean(Removal, b, BindSlots(b, s))
  {
    forall n | n in SecretKeys(b) ensures Unique(EnvVar, Listed(BindSlots(b, s).env), n) {
      BoundUnique(b, s, n);
    }
    if b.files {
      BindEnvIs(b, s);
      var m := MountEntry(b.name, JoinPath(RootOf(Listed(BindSlots(b, s).env)), b.name));
      CountConcat(VolumeMount, Listed(s.mounts), [m], b.name);
      CountOne(VolumeMount, m, b.name);
    } else {
      AddRef(s, b, b.secret);
    }
  }

  lemma VolumesUndone(b: Binding, s: Slot)
    requires !s.Bad? && !Has(Volume, Listed(s), b.name)
    ensures var t := if b.files then Run(Volume, Upsert(b.name, VolumeEntry(b)), s) else s;
      Listed(Run(Volume, Drop(b.name), t)) == Listed(s)
  {
    var xs, v := Listed(s), VolumeEntry(b);
    EntryNames(b, "", b.name);
    DropAdded(Volume, xs, v, [], b.name);
    assert xs + [v] + [] == xs + [v] && xs + [] == xs;
  }

  // ---- Fields of entries ----

  /** The text in a field, "" if there is none. */
  function FieldText(e: Json, k: string): string
  {
    match Walk(e, [Key(k)])
    case Found(Str(s)) => s
    case _ => ""
  }

  /** The entry has this name. */
  predicate HasName(e: Json, n: string)
  {
    Walk(e, [Key("name")]) == Found(Str(n))
  }

  /** The entry at `i`, and no other, has the name. */
  predicate NamedAlone(xs: seq<Json>, n: string, i: int)
  {
    0 <= i < |xs| && forall j :: 0 <= j < |xs| ==> (HasName(xs[j], n) <==> j == i)
  }

  lemma TwoSteps(e: Json, j: string, k: string)
    ensures Walk(e, [Key(j), Key(k)]) ==
      if Walk(e, [Key(j)]).Found? then Walk(Walk(e, [Key(j)]).value, [Key(k)]) else Walk(e, [Key(j)])
  {
    assert [Key(j)] + [Key(k)] == [Key(j), Key(k)];
    WalkSplit(e, [Key(j)], [Key(k)]);
  }

  // ---- The secret of a volume ----

  /** Every volume of the name shows the secret, and there is one. */
  predicate VolumeShows(vs: seq<Json>, name: string, secret: string)
  {
    && (exists i :: 0 <= i < |vs| && HasName(vs[i], name))
    && forall i :: 0 <= i < |vs| && HasName(vs[i], name) ==>
         Walk(vs[i], [Key("secret"), Key("secretName")]) == if secret == "" then Missing else Found(Str(secret))
  }

  lemma VolumeHolds(b: Binding)
    ensures HasName(VolumeEntry(b), b.name)
    ensures Walk(VolumeEntry(b), [Key("secret"), Key("secretName")]) ==
      if b.secret == "" then Missing else Found(Str(b.secret))
  {
    TwoSteps(VolumeEntry(b), "secret", "secretName");
  }

  lemma NamedByName(kind: Kind, n: string)
    requires kind != EnvFrom
    ensures forall e :: HasName(e, n) && e.Obj? ==> Named(kind, e, n)
    ensures forall e :: HasName(e, n) ==> e.Obj?
  {
  }

  lemma {:induction false} FirstNamed(kind: Kind, xs: seq<Json>, n: string) returns (k: nat)
    requires Has(kind, xs, n)
    ensures k < |xs| && Named(kind, xs[k], n) && forall j :: 0 <= j < k ==> !Named(kind, xs[j], n)
  {
    if Named(kind, xs[0], n) {
      k := 0;
    } else {
      k := FirstNamed(kind, xs[1..], n);
      k := k + 1;
    }
  }

  // ---- A binding whose secret changes ----

  /** Passes with one secret after the other. */
  function BoundSeq(b: Binding, secrets: seq<string>, doc: Json, sel: Selection, lenient: bool): Json
    decreases |secrets|
  {
    if secrets == [] then doc
    else BoundSeq(b, secrets[1..], Bound(b.(secret := secrets[0]), doc, sel, lenient), sel, lenient)
  }

  lemma ForgetsOne(b: Binding, stale: string, doc: Json, sel: Selection, lenient: bool)
    requires Workable(doc, sel) && b.files && CleanFor(AsEnv, b, doc, sel) && Distinct(Variables(b))
    ensures var d := Bound(b.(secret := stale), doc, sel, lenient);
      && Workable(d, sel) && CleanFor(AsEnv, b, d, sel)
      && Bound(b, d, sel, lenient) == Bound(b, Bound(b, doc, sel, lenient), sel, lenient)
      && (b.env == [] ==> Bound(b, d, sel, lenient) == Bound(b, doc, sel, lenient))
  {
    hide Bound, Workable, Follows, SiteTargets, SiteOf, ContainerSlots, Volumes, BindSlots;
    var a := b.(secret := stale);
    var site := SiteOf(doc, sel);
    var ts := SiteTargets(site);
    var d, e := Bound(a, doc, sel, lenient), Bound(b, doc, sel, lenient);
    assert Variables(a) == Variables(b);
    BoundKeepsClean(a, doc, sel, lenient);
    BoundKeepsClean(b, doc, sel, lenient);
    BoundKeepsClean(b, d, sel, lenient);
    BoundKeepsClean(b, e, sel, lenient);
    WorkableReady(doc, sel);
    var f, g := Bound(b, d, sel, lenient), Bound(b, e, sel, lenient);
    forall c | c in site.cs ensures ContainerSlots(f, c) == ContainerSlots(g, c) {
      SlotsForget(a, b, ContainerSlots(doc, c));
    }
    EntryNames(a, "", b.name);
    EntryNames(b, "", b.name);
    UpsertUpsert(Volume, Listed(Volumes(doc, sel)), b.name, VolumeEntry(a), VolumeEntry(b));
    UpsertUpsert(Volume, Listed(Volumes(doc, sel)), b.name, VolumeEntry(b), VolumeEntry(b));
    FollowsTrans(doc, d, f, ts, {sel});
    FollowsTrans(doc, e, g, ts, {sel});
    SameStored(doc, f, g, sel, sel);
    Converges(b, doc, sel, lenient);
  }

  /** In file mode the stored workload depends on the latest secret alone: it
      is that of one pass with it, or of two passes with it when variables are
      mapped and there were passes before. */
  lemma {:induction false} Forgets(b: Binding, secrets: seq<string>, doc: Json, sel: Selection, lenient: bool)
    requires Workable(doc, sel) && b.files && CleanFor(AsEnv, b, doc, sel) && Distinct(Variables(b)) && secrets != []
    ensures var last := b.(secret := secrets[|secrets| - 1]);
      var one := Bound(last, doc, sel, lenient);
      && BoundSeq(b, secrets, doc, sel, lenient) == (if |secrets| == 1 then one else Bound(last, one, sel, lenient))
      && (b.env == [] ==> BoundSeq(b, secrets, doc, sel, lenient) == one)
    decreases |secrets|
  {
    hide Bound, Workable, CleanFor;
    if |secrets| > 1 {
      var last := b.(secret := secrets[|secrets| - 1]);
      assert Variables(last) == Variables(b);
      SameClean(b, last, doc, sel);
      ForgetsOne(last, secrets[0], doc, sel, lenient);
      assert last.(secret := secrets[0]) == b.(secret := secrets[0]);
      var d := Bound(b.(secret := secrets[0]), doc, sel, lenient);
      SameClean(last, b, d, sel);
      Forgets(b, secrets[1..], d, sel, lenient);
      assert secrets[1..][|secrets| - 2] == secrets[|secrets| - 1];
      Converges(last, doc, sel, lenient);
    }
  }

  /** In file mode the secret does not matter to cleanness. */
  lemma SameClean(b: Binding, c: Binding, doc: Json, sel: Selection)
    requires b.files && c == b.(secret := c.secret) && CleanFor(AsEnv, b, doc, sel)
    ensures CleanFor(AsEnv, c, doc, sel)
  {
    hide ContainerSlots, SiteOf;
    assert Variables(b) == Variables(c);
  }

  /** The entries that do not carry the name, in order. */
  function Others(kind: Kind, xs: seq<Json>, n: string): seq<Json>
  {
    if xs == [] then [] else (if Named(kind, xs[0], n) then [] else [xs[0]]) + Others(kind, xs[1..], n)
  }

  lemma {:induction false} OthersConcat(kind: Kind, xs: seq<Json>, ys: seq<Json>, n: string)
    ensures Others(kind, xs + ys, n) == Others(kind, xs, n) + Others(kind, ys, n)
  {
    if xs == [] {
      assert xs + ys == ys;
    } else {
      assert (xs + ys)[0] == xs[0] && (xs + ys)[1..] == xs[1..] + ys;
      OthersConcat(kind, xs[1..], ys, n);
    }
  }

  lemma {:induction false} OthersReplace(kind: Kind, xs: seq<Json>, n: string, e: Json)
    requires Named(kind, e, n)
    ensures Others(kind, Replace(kind, xs, n, e), n) == Others(kind, xs, n)
  {
    if xs != [] {
      assert Replace(kind, xs, n, e)[1..] == Replace(kind, xs[1..], n, e);
      OthersReplace(kind, xs[1..], n, e);
    }
  }

  /** Exactly one entry carries the name, and it is `e`. */
  predicate OnlyOne(kind: Kind, xs: seq<Json>, n: string, e: Json)
  {
    Count(kind, xs, n) == 1 && forall i :: 0 <= i < |xs| && Named(kind, xs[i], n) ==> xs[i] == e
  }

  lemma UpsertOne(kind: Kind, xs: seq<Json>, n: string, e: Json)
    requires Named(kind, e, n) && Unique(kind, xs, n)
    ensures OnlyOne(kind, Upserted(kind, xs, n, e), n, e)
    ensures Others(kind, Upserted(kind, xs, n, e), n) == Others(kind, xs, n)
  {
    if Has(kind, xs, n) {
      ReplaceCount(kind, xs, n, e);
      OthersReplace(kind, xs, n, e);
    } else {
      CountConcat(kind, xs, [e], n);
      CountOne(kind, e, n);
      OthersConcat(kind, xs, [e], n);
      assert Others(kind, [e], n) == [] && Others(kind, xs, n) + [] == Others(kind, xs, n);
      NoneAt(kind, xs, n);
    }
  }

  lemma {:induction false} NoneAt(kind: Kind, xs: seq<Json>, n: string)
    requires !Has(kind, xs, n)
    ensures forall i :: 0 <= i < |xs| ==> !Named(kind, xs[i], n)
  {
    if xs != [] { NoneAt(kind, xs[1..], n); }
  }

  /** After any sequence of secrets exactly one volume carries the binding's
      name and shows the latest secret; all others keep value and order. */
  lemma {:induction false} LatestVolume(b: Binding, secrets: seq<string>, doc: Json, sel: Selection, lenient: bool)
    requires Workable(doc, sel) && b.files && secrets != []
    requires Unique(Volume, Listed(Volumes(doc, sel)), b.name)
    ensures var vs := Listed(Volumes(BoundSeq(b, secrets, doc, sel, lenient), sel));
      && OnlyOne(Volume, vs, b.name, VolumeEntry(b.(secret := secrets[|secrets| - 1])))
      && VolumeShows(vs, b.name, secrets[|secrets| - 1])
      && Others(Volume, vs, b.name) == Others(Volume, Listed(Volumes(doc, sel)), b.name)
    decreases |secrets|
  {
    hide Bound, Workable, Others, Count, VolumeShows;
    var a := b.(secret := secrets[0]);
    VolumePass(a, doc, sel, lenient);
    EntryNames(a, "", b.name);
    UpsertOne(Volume, Listed(Volumes(doc, sel)), b.name, VolumeEntry(a));
    var d := Bound(a, doc, sel, lenient);
    if |secrets| > 1 {
      assert secrets[1..][|secrets| - 2] == secrets[|secrets| - 1];
      LatestVolume(b, secrets[1..], d, sel, lenient);
    } else {
      assert BoundSeq(b, secrets[1..], d, sel, lenient) == d;
      OnlyShows(Listed(Volumes(d, sel)), a);
    }
  }

  lemma OnlyShows(vs: seq<Json>, b: Binding)
    requires OnlyOne(Volume, vs, b.name, VolumeEntry(b))
    ensures VolumeShows(vs, b.name, b.secret)
  {
    VolumeHolds(b);
    NamedByName(Volume, b.name);
    var k := FirstNamed(Volume, vs, b.name);
  }

  /** A pass writes the binding's volume, whatever the environment holds. */
  lemma VolumePass(b: Binding, doc: Json, sel: Selection, lenient: bool)
    requires Workable(doc, sel) && b.files
    ensures var d := Bound(b, doc, sel, lenient);
      && Workable(d, sel)
      && Listed(Volumes(d, sel)) == Upserted(Volume, Listed(Volumes(doc, sel)), b.name, VolumeEntry(b))
  {
    hide Bound, Follows, Coherent, Plain, Walk;
    var site := SiteOf(doc, sel);
    var ts := SiteTargets(site);
    WorkableReady(doc, sel);
    BoundRefines(b, doc, ts, {sel}, site, lenient);
    PassVolumes(b, ViewOf(doc, ts), site);
    assert VolumeT(sel) in ts;
    assert ViewOf(Bound(b, doc, sel, lenient), ts)[VolumeT(sel)] == Volumes(Bound(b, doc, sel, lenient), sel);
    assert ViewOf(doc, ts)[VolumeT(sel)] == Volumes(doc, sel);
  }

  ghost predicate RefsUnique(doc: Json, sel: Selection, secrets: seq<string>)
  {
    forall c, n :: c in SiteOf(doc, sel).cs && n in secrets ==>
      n != "" && Unique(EnvFrom, Listed(ContainerSlots(doc, c).envFrom), n)
  }

  lemma AddRef(s: Slots, b: Binding, n: string)
    requires Readable(s) && !b.files && b.secret != "" && Unique(EnvFrom, Listed(s.envFrom), b.secret)
    ensures Unique(EnvFrom, Listed(s.envFrom), n) ==> Unique(EnvFrom, Listed(BindSlots(b, s).envFrom), n)
    ensures n == b.secret || Has(EnvFrom, Listed(s.envFrom), n) ==> Has(EnvFrom, Listed(BindSlots(b, s).envFrom), n)
  {
    var xs, e := Listed(s.envFrom), SecretRefEntry(b.secret);
    EnvFromAgain(b.secret, s.envFrom);
    RefName(b.secret, n);
    OneName(EnvFrom, b.secret, n);
    CountDrop(EnvFrom, xs, b.secret, n);
    CountConcat(EnvFrom, DropFirst(EnvFrom, xs, b.secret), [e], n);
    CountOne(EnvFrom, e, n);
  }

  /** Every container refers to the secret. */
  ghost predicate Refers(doc: Json, sel: Selection, n: string)
  {
    forall c :: c in SiteOf(doc, sel).cs ==> Has(EnvFrom, Listed(ContainerSlots(doc, c).envFrom), n)
  }

  /** No container has two variables of a name that the binding maps. */
  ghost predicate VarsUnique(b: Binding, doc: Json, sel: Selection)
  {
    forall c :: c in SiteOf(doc, sel).cs ==> AllUnique(Listed(ContainerSlots(doc, c).env), Variables(b))
  }

  lemma ReferenceStep(b: Binding, all: seq<string>, doc: Json, sel: Selection, lenient: bool, n: string)
    requires Workable(doc, sel) && !b.files && RefsUnique(doc, sel, all) && b.secret in all
    requires VarsUnique(b, doc, sel) && Distinct(Variables(b))
    ensures var d := Bound(b, doc, sel, lenient);
      && Workable(d, sel) && SiteOf(d, sel) == SiteOf(doc, sel) && RefsUnique(d, sel, all) && VarsUnique(b, d, sel)
      && (n == b.secret || Refers(doc, sel, n) ==> Refers(d, sel, n))
  {
    hide Bound, Workable, BindSlots, Follows, SiteTargets, ContainerSlots, Volumes;
    var site := SiteOf(doc, sel);
    WorkableReady(doc, sel);
    assert CleanFor(AsEnv, b, doc, sel);
    BoundKeepsClean(b, doc, sel, lenient);
    var d := Bound(b, doc, sel, lenient);
    forall c, m | c in site.cs && m in all ensures m != "" && Unique(EnvFrom, Listed(ContainerSlots(d, c).envFrom), m) {
      AddRef(ContainerSlots(doc, c), b, m);
    }
    forall c | c in site.cs
      ensures n == b.secret || Has(EnvFrom, Listed(ContainerSlots(doc, c).envFrom), n) ==>
        Has(EnvFrom, Listed(ContainerSlots(d, c).envFrom), n)
    {
      AddRef(ContainerSlots(doc, c), b, n);
    }
  }

  /** In environment mode the latest secret is referenced exactly once, and
      so is every earlier one: stale references are never removed. */
  lemma {:induction false} LatestReference(
    b: Binding, secrets: seq<string>, all: seq<string>, doc: Json, sel: Selection, lenient: bool, n: string)
    requires Workable(doc, sel) && !b.files && RefsUnique(doc, sel, all)
    requires VarsUnique(b, doc, sel) && Distinct(Variables(b))
    requires forall m :: m in secrets ==> m in all
    ensures var d := BoundSeq(b, secrets, doc, sel, lenient);
      && Workable(d, sel) && SiteOf(d, sel) == SiteOf(doc, sel) && RefsUnique(d, sel, all)
      && (n in secrets || Refers(doc, sel, n) ==> Refers(d, sel, n))
    decreases |secrets|
  {
    hide Bound, Workable, RefsUnique, Refers, SiteOf;
    if secrets != [] {
      var a := b.(secret := secrets[0]);
      assert Variables(a) == Variables(b);
      assert secrets[0] in secrets;
      ReferenceStep(a, all, doc, sel, lenient, n);
      LatestReference(b, secrets[1..], all, Bound(a, doc, sel, lenient), sel, lenient, n);
    }
  }

  // ---- Containers matched more than once ----

  lemma SameTargets(cs: seq<MetaContainer>, ds: seq<MetaContainer>)
    requires forall c :: c in cs <==> c in ds
    ensures ContainerTargets(cs) == ContainerTargets(ds)
  {
    hide ContainerTargets, TargetsOf;
    forall t ensures t in ContainerTargets(cs) <==> t in ContainerTargets(ds) {
      if t in ContainerTargets(cs) {
        var c := Owner(cs, t);
        OwnTargets(ds, c);
      }
      if t in ContainerTargets(ds) {
        var c := Owner(ds, t);
        OwnTargets(cs, c);
      }
    }
  }

  /** Two selections of a workload that name the same volumes and find the
      same containers, in any order and any number of times, store the same
      workload. */
  lemma MatchedTwice(b: Binding, doc: Json, one: Selection, two: Selection, lenient: bool)
    requires Workable(doc, one) && Workable(doc, two)
    requires one.mapping.volume == two.mapping.volume
    requires forall c :: c in SiteOf(doc, one).cs <==> c in SiteOf(doc, two).cs
    requires CleanFor(AsEnv, b, doc, one)
    ensures Bound(b, doc, one, lenient) == Bound(b, doc, two, lenient)
    ensures CleanFor(Removal, b, doc, one) ==> Unbound(b, doc, one) == Unbound(b, doc, two)
  {
    var ts := SiteTargets(SiteOf(doc, one));
    SameTargets(SiteOf(doc, one).cs, SiteOf(doc, two).cs);
    assert ts == SiteTargets(SiteOf(doc, two));
    BoundSite(b, doc, one, lenient);
    BoundSite(b, doc, two, lenient);
    SameStored(doc, Bound(b, doc, one, lenient), Bound(b, doc, two, lenient), one, two);
    if CleanFor(Removal, b, doc, one) {
      UnboundSite(b, doc, one);
      UnboundSite(b, doc, two);
      SameStored(doc, Unbound(b, doc, one), Unbound(b, doc, two), one, two);
    }
  }
}
