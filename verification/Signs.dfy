/**
 The signs that a binding leaves in a workload: volumes and mounts of its name,
 references to its secret, and variables. How often a list shows a sign, through
 binding and unbinding.
 */
module Signs {

  import opened Sequences
  import opened Documents
  import opened Entries
  import opened Pods
  import opened Views
  import opened Projection
  import opened Slots
  import opened Laws
  import opened Stored

  datatype Sign = Mounted(name: string) | Referenced(secret: string) | Variable(variable: string)

  /** The name under which entries show the sign. */
  function Tag(x: Sign): string
  {
    match x
    case Mounted(name) => name
    case Referenced(secret) => secret
    case Variable(variable) => variable
  }

  /** Can the list show the sign? */
  predicate Shows(t: Target, x: Sign)
  {
    match x
    case Mounted(_) => t.kind.Volume? || t.kind.VolumeMount?
    case Referenced(_) => t.kind.EnvFrom?
    case Variable(_) => t.kind.EnvVar?
  }

  /** The list of a container that shows the sign. */
  function PlaceIn(c: MetaContainer, x: Sign): Target
  {
    match x
    case Mounted(_) => MountT(c)
    case Referenced(_) => EnvFromT(c)
    case Variable(_) => EnvT(c)
  }

  predicate PlacedBy(cs: seq<MetaContainer>, t: Target, x: Sign)
  {
    exists c :: c in cs && t == PlaceIn(c, x)
  }

  /** The lists of a site that show the sign. */
  predicate Owns(site: Site, t: Target, x: Sign)
  {
    (x.Mounted? && t == VolumeT(site.sel)) || PlacedBy(site.cs, t, x)
  }

  /** Binding leaves the sign. */
  predicate Leaves(b: Binding, x: Sign)
  {
    match x
    case Mounted(name) => b.files && b.name == name
    case Referenced(secret) => !b.files && b.secret == secret
    case Variable(variable) => variable in Variables(b)
  }

  /** Unbinding removes it. */
  predicate Removes(b: Binding, x: Sign)
  {
    match x
    case Mounted(name) => b.name == name
    case Referenced(secret) => b.secret == secret
    case Variable(variable) => variable in SecretKeys(b)
  }

  /** A reference names a secret; variables are mapped once, and the binding root, which
      no unbinding removes, is not one of them. */
  predicate Sane(env: seq<EnvBinding>, x: Sign)
  {
    match x
    case Mounted(_) => true
    case Referenced(secret) => secret != ""
    case Variable(variable) =>
      variable != BINDING_ROOT_VAR && forall i, j :: 0 <= i < j < |env| ==> env[i].variable != env[j].variable
  }

  // ---- Lists ----

  function AtLeastOne(n: nat): nat { if n == 0 then 1 else n }

  lemma {:induction false} ReplaceCountOther(kind: Kind, xs: seq<Json>, n: string, f: Json, m: string)
    requires Named(kind, f, n) && m != n
    ensures Count(kind, Replace(kind, xs, n, f), m) == Count(kind, xs, m)
  {
    if xs != [] {
      OneName(kind, m, n);
      assert Replace(kind, xs, n, f)[1..] == Replace(kind, xs[1..], n, f);
      ReplaceCountOther(kind, xs[1..], n, f, m);
    }
  }

  lemma UpsertCountOther(kind: Kind, xs: seq<Json>, n: string, f: Json, m: string)
    requires Named(kind, f, n) && m != n
    ensures Count(kind, Upserted(kind, xs, n, f), m) == Count(kind, xs, m)
  {
    OneName(kind, m, n);
    ReplaceCountOther(kind, xs, n, f, m);
    CountConcat(kind, xs, [f], m);
    CountOne(kind, f, m);
  }

  lemma UpsertCount(kind: Kind, s: Slot, name: string, e: Json, n: string)
    requires !s.Bad? && Named(kind, e, name)
    ensures Count(kind, Listed(Run(kind, Upsert(name, e), s)), n) ==
      if n == name then AtLeastOne(Count(kind, Listed(s), n)) else Count(kind, Listed(s), n)
  {
    if n != name {
      UpsertCountOther(kind, Listed(s), name, e, n);
    } else if Has(kind, Listed(s), name) {
      ReplaceCount(kind, Listed(s), name, e);
    } else {
      CountConcat(kind, Listed(s), [e], name);
      CountOne(kind, e, name);
    }
  }

  lemma DropCount(kind: Kind, s: Slot, name: string, n: string)
    ensures n != name ==> Count(kind, Listed(Run(kind, Drop(name), s)), n) == Count(kind, Listed(s), n)
    ensures n == name && Count(kind, Listed(s), n) <= 1 ==> Count(kind, Listed(Run(kind, Drop(name), s)), n) == 0
  {
    OneName(kind, name, n);
    CountDrop(kind, Listed(s), name, n);
  }

  lemma RefAdded(s: Slot, secret: string, n: string)
    requires !s.Bad? && n != ""
    ensures var after := Run(EnvFrom, Append([SecretRefEntry(secret)]), Run(EnvFrom, Drop(secret), s));
      && !after.Bad?
      && Count(EnvFrom, Listed(after), n) ==
           if n == secret then AtLeastOne(Count(EnvFrom, Listed(s), n)) else Count(EnvFrom, Listed(s), n)
  {
    var xs := Listed(s);
    OneName(EnvFrom, secret, n);
    CountDrop(EnvFrom, xs, secret, n);
    CountConcat(EnvFrom, Listed(Run(EnvFrom, Drop(secret), s)), [SecretRefEntry(secret)], n);
    CountOne(EnvFrom, SecretRefEntry(secret), n);
    RefName(secret, n);
  }

  /** Distinct names take away one entry each. */
  lemma {:induction false} DropListOnce(xs: seq<Json>, names: seq<string>, n: string)
    requires Distinct(names)
    ensures Count(EnvVar, DropList(EnvVar, xs, names), n) ==
      if n in names && Has(EnvVar, xs, n) then Count(EnvVar, xs, n) - 1 else Count(EnvVar, xs, n)
    decreases |names|
  {
    if names != [] {
      OneName(EnvVar, names[0], n);
      CountDrop(EnvVar, xs, names[0], n);
      DropListOnce(DropFirst(EnvVar, xs, names[0]), names[1..], n);
    }
  }

  lemma VariablesAdded(b: Binding, s: Slot, n: string)
    requires !s.Bad? && Distinct(Variables(b))
    ensures var after := Run(EnvVar, Append(EnvEntries(b)), DropNames(EnvVar, s, Variables(b)));
      && !after.Bad?
      && Count(EnvVar, Listed(after), n) ==
           if n in Variables(b) then AtLeastOne(Count(EnvVar, Listed(s), n)) else Count(EnvVar, Listed(s), n)
  {
    var ys := AddEnvResult(b, s);
    DropListOnce(Listed(s), Variables(b), n);
    CountConcat(EnvVar, ys, EnvEntries(b), n);
    CountVariable(b, n);
  }

  lemma RootEnsured(s: Slot, n: string)
    requires !s.Bad? && n != BINDING_ROOT_VAR
    ensures var after := Run(EnvVar, Ensure(BINDING_ROOT_VAR, ROOT_ENTRY), s);
      !after.Bad? && Count(EnvVar, Listed(after), n) == Count(EnvVar, Listed(s), n)
  {
    CountConcat(EnvVar, Listed(s), [ROOT_ENTRY], n);
    CountOne(EnvVar, ROOT_ENTRY, n);
    assert !Named(EnvVar, ROOT_ENTRY, n);
  }

  lemma KeysDropped(s: Slot, names: seq<string>, n: string)
    requires !s.Bad?
    ensures var after := DropNames(EnvVar, s, names);
      && !after.Bad?
      && (n !in names ==> Count(EnvVar, Listed(after), n) == Count(EnvVar, Listed(s), n))
      && (n in names && Count(EnvVar, Listed(s), n) <= 1 ==> Count(EnvVar, Listed(after), n) == 0)
  {
    DropNamesIsList(EnvVar, s, names);
    CountDropList(EnvVar, Listed(s), names, n);
  }

  // ---- One container ----

  /** The step adds, or removes, the sign. */
  predicate Hits(act: Action, b: Binding, x: Sign)
  {
    match act
    case AsEnv => !x.Mounted? && Leaves(b, x)
    case AsFiles => x.Mounted? && b.name == x.name
    case Removal => Removes(b, x)
  }

  /** How many entries of a list show the sign. */
  function CountV(v: View, t: Target, x: Sign): nat
    requires t in v
  {
    Count(t.kind, Listed(v[t]), Tag(x))
  }

  /** The count after a hit. */
  function Hit(act: Action, n: nat): nat
  {
    if act.Removal? then 0 else AtLeastOne(n)
  }

  lemma StepMounts(act: Action, b: Binding, s: Slots, x: Sign)
    requires x.Mounted? && !s.mounts.Bad?
    requires (act.Removal? && b.name == x.name ==> Count(VolumeMount, Listed(s.mounts), x.name) <= 1)
    ensures var n := Count(VolumeMount, Listed(s.mounts), x.name);
      && !SlotStep(act, b, s).mounts.Bad?
      && Count(VolumeMount, Listed(SlotStep(act, b, s).mounts), x.name) == if Hits(act, b, x) then Hit(act, n) else n
  {
    match act
    case AsEnv =>
    case AsFiles =>
      var path := JoinPath(RootOf(Listed(SlotStep(act, b, s).env)), b.name);
      EntryNames(b, path, b.name);
      UpsertCount(VolumeMount, s.mounts, b.name, MountEntry(b.name, path), x.name);
    case Removal => DropCount(VolumeMount, s.mounts, b.name, x.name);
  }

  lemma StepReferences(act: Action, b: Binding, s: Slots, x: Sign)
    requires x.Referenced? && x.secret != "" && !s.envFrom.Bad?
    requires act.Removal? && b.secret == x.secret ==> Count(EnvFrom, Listed(s.envFrom), x.secret) <= 1
    ensures var n := Count(EnvFrom, Listed(s.envFrom), x.secret);
      && !SlotStep(act, b, s).envFrom.Bad?
      && Count(EnvFrom, Listed(SlotStep(act, b, s).envFrom), x.secret) == if Hits(act, b, x) then Hit(act, n) else n
  {
    RefAdded(s.envFrom, b.secret, x.secret);
    DropCount(EnvFrom, s.envFrom, b.secret, x.secret);
  }

  lemma StepVariables(act: Action, b: Binding, s: Slots, x: Sign)
    requires x.Variable? && Sane(b.env, x) && !s.env.Bad?
    requires act.Removal? && x.variable in SecretKeys(b) ==> Count(EnvVar, Listed(s.env), x.variable) <= 1
    ensures var n := Count(EnvVar, Listed(s.env), x.variable);
      && !SlotStep(act, b, s).env.Bad?
      && Count(EnvVar, Listed(SlotStep(act, b, s).env), x.variable) == if Hits(act, b, x) then Hit(act, n) else n
  {
    match act
    case AsEnv => VariablesAdded(b, s.env, x.variable);
    case AsFiles => RootEnsured(s.env, x.variable);
    case Removal => KeysDropped(s.env, SecretKeys(b), x.variable);
  }

  lemma StepSign(act: Action, b: Binding, v: View, c: MetaContainer, t: Target, x: Sign)
    requires Covers(v, c) && t in v && Shows(t, x) && !t.kind.Volume? && !v[t].Bad? && Sane(b.env, x)
    requires act.Removal? && Hits(act, b, x) && t == PlaceIn(c, x) ==> CountV(v, t, x) <= 1
    ensures t in StepV(act, b, v, c) && !StepV(act, b, v, c)[t].Bad?
    ensures CountV(StepV(act, b, v, c), t, x) ==
      if Hits(act, b, x) && t == PlaceIn(c, x) then Hit(act, CountV(v, t, x)) else CountV(v, t, x)
  {
    hide StepV, SlotStep, Sane, Count;
    StepSlots(act, b, v, c);
    if t == PlaceIn(c, x) {
      match x
      case Mounted(_) => StepMounts(act, b, SlotsOf(v, c), x);
      case Referenced(_) => SaneReference(b, x); StepReferences(act, b, SlotsOf(v, c), x);
      case Variable(_) => StepVariables(act, b, SlotsOf(v, c), x);
    } else {
      assert t !in TargetsOf(c);
    }
  }

  lemma SaneReference(b: Binding, x: Sign)
    requires x.Referenced? && Sane(b.env, x)
    ensures x.secret != ""
  {
  }

  // ---- A pass ----

  lemma {:induction false} SweepSign(act: Action, b: Binding, v: View, cs: seq<MetaContainer>, t: Target, x: Sign)
    requires CoversAll(v, cs) && t in v && Shows(t, x) && !t.kind.Volume? && !v[t].Bad? && Sane(b.env, x)
    requires act.Removal? && Hits(act, b, x) && PlacedBy(cs, t, x) ==> CountV(v, t, x) <= 1
    ensures t in SweepV(act, b, v, cs) && !SweepV(act, b, v, cs)[t].Bad?
    ensures CountV(SweepV(act, b, v, cs), t, x) ==
      if Hits(act, b, x) && PlacedBy(cs, t, x) then Hit(act, CountV(v, t, x)) else CountV(v, t, x)
    decreases |cs|
  {
    hide StepV, Hits, Sane, Shows, PlaceIn, Count;
    if cs != [] {
      var w := StepV(act, b, v, cs[0]);
      assert PlacedBy(cs, t, x) <==> t == PlaceIn(cs[0], x) || PlacedBy(cs[1..], t, x);
      StepSign(act, b, v, cs[0], t, x);
      CoversTail(v, w, cs);
      SweepSign(act, b, w, cs[1..], t, x);
    }
  }

  lemma VolumeSign(b: Binding, v: View, site: Site, t: Target, x: Sign)
    requires Fits(v, site) && t in v && t.kind.Volume? && x.Mounted? && !v[t].Bad?
    ensures CountV(ProjectV(b, v, site), t, x) ==
      if Leaves(b, x) && t == VolumeT(site.sel) then AtLeastOne(CountV(v, t, x)) else CountV(v, t, x)
    ensures Removes(b, x) && t == VolumeT(site.sel) && CountV(v, t, x) <= 1 ==> CountV(UnbindV(b, v, site), t, x) == 0
    ensures !(Removes(b, x) && t == VolumeT(site.sel)) ==> CountV(UnbindV(b, v, site), t, x) == CountV(v, t, x)
  {
    var vol := VolumeT(site.sel);
    var w := if b.files && b.env == [] then v else SweepV(AsEnv, b, v, site.cs);
    SweepOther(AsEnv, b, v, site.cs, t);
    EntryNames(b, "", b.name);
    if t == vol { UpsertCount(Volume, v[t], b.name, VolumeEntry(b), x.name); }
    if b.files { SweepOther(AsFiles, b, Edit(w, vol, Upsert(b.name, VolumeEntry(b))), site.cs, t); }
    SweepOther(Removal, b, Edit(v, vol, Drop(b.name)), site.cs, t);
    DropCount(Volume, v[t], b.name, x.name);
  }

  lemma ProjectSign(b: Binding, v: View, site: Site, t: Target, x: Sign)
    requires Fits(v, site) && t in v && Shows(t, x) && !v[t].Bad? && Sane(b.env, x)
    ensures t in ProjectV(b, v, site)
    ensures CountV(ProjectV(b, v, site), t, x) ==
      if Leaves(b, x) && Owns(site, t, x) then AtLeastOne(CountV(v, t, x)) else CountV(v, t, x)
  {
    hide Sane, SweepV;
    if t.kind.Volume? {
      VolumeSign(b, v, site, t, x);
    } else {
      var w := if b.files && b.env == [] then v else SweepV(AsEnv, b, v, site.cs);
      SweepSign(AsEnv, b, v, site.cs, t, x);
      if b.files {
        var u := Edit(w, VolumeT(site.sel), Upsert(b.name, VolumeEntry(b)));
        assert u[t] == w[t];
        SweepSign(AsFiles, b, u, site.cs, t, x);
      }
    }
  }

  lemma UnbindSign(b: Binding, v: View, site: Site, t: Target, x: Sign)
    requires Fits(v, site) && t in v && Shows(t, x) && !v[t].Bad? && Sane(b.env, x)
    requires Removes(b, x) && Owns(site, t, x) ==> CountV(v, t, x) <= 1
    ensures t in UnbindV(b, v, site)
    ensures CountV(UnbindV(b, v, site), t, x) == if Removes(b, x) && Owns(site, t, x) then 0 else CountV(v, t, x)
  {
    hide Sane, SweepV;
    if t.kind.Volume? {
      VolumeSign(b, v, site, t, x);
    } else {
      var u := Edit(v, VolumeT(site.sel), Drop(b.name));
      assert u[t] == v[t];
      SweepSign(Removal, b, u, site.cs, t, x);
    }
  }
}
