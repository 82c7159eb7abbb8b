/**
 When binding and unbinding fail: exactly when a workload has no containers to
 be found or a list of them cannot be read or written, and then nothing is
 stored and nothing is forgotten.
 */
module Failing {

  import opened Documents
  import opened Entries
  import opened Pods
  import opened Views
  import opened Projection
  import opened Stored
  import opened Pipelines
  import opened Protocol
  import opened Rebinding
  import opened Lifecycle

  // ---- One list ----

  /** There is something else than a list of such entries at the location, or
      something else than a map on the way to it. */
  predicate Unreadable(doc: Json, t: Target)
  {
    match Walk(doc, t.loc)
    case Failed => true
    case Missing => false
    case Found(v) => !v.Nil? && !(v.List? && forall i :: 0 <= i < |v.items| ==> Decodes(t.kind, v.items[i]))
  }

  lemma UnreadableIs(doc: Json, t: Target)
    ensures Unreadable(doc, t) <==> Read(doc, t.loc, t.kind).Bad?
  {
  }

  /** The field is not there, null, or a text. */
  predicate TextField(e: Json, k: string)
  {
    var r := Walk(e, [Key(k)]);
    r.Found? ==> r.value.Null? || r.value.Str?
  }

  /** The field is not there, null, or a map. */
  predicate MapField(e: Json, k: string)
  {
    var r := Walk(e, [Key(k)]);
    r.Found? ==> r.value.Null? || r.value.Obj?
  }

  /** Which entries can be decoded: maps in which names, values and paths are
      texts, and sources are maps. */
  lemma EntryDecodes(e: Json)
    ensures Decodes(EnvVar, e) <==> e.Obj? && TextField(e, "name") && TextField(e, "value") && MapField(e, "valueFrom")
    ensures Decodes(VolumeMount, e) <==> e.Obj? && TextField(e, "name") && TextField(e, "mountPath")
    ensures Decodes(Volume, e) <==> e.Obj? && TextField(e, "name") && MapField(e, "secret")
    ensures Decodes(EnvFrom, e) <==>
      && e.Obj? && MapField(e, "secretRef")
      && var r := Walk(e, [Key("secretRef")]); r.Found? && r.value.Obj? ==> TextField(r.value, "name")
  {
    if e.Obj? {
      FieldIs(e, "name");
      FieldIs(e, "value");
      FieldIs(e, "valueFrom");
      FieldIs(e, "mountPath");
      FieldIs(e, "secret");
      FieldIs(e, "secretRef");
      if "secretRef" in e.fields && e.fields["secretRef"].Obj? { FieldIs(e.fields["secretRef"], "name"); }
    }
  }

  lemma FieldIs(e: Json, k: string)
    requires e.Obj?
    ensures Walk(e, [Key(k)]) == if k in e.fields then Found(e.fields[k]) else Missing
    ensures (TextField(e, k) <==> StringAt(e.fields, k)) && (MapField(e, k) <==> MapAt(e.fields, k))
  {
    assert [Key(k)][1..] == [];
  }

  /** The lists that differ are at unrelated locations. */
  predicate NonOverlapping(ts: set<Target>)
  {
    forall t, u :: t in ts && u in ts && t != u ==> !Comparable(t.loc, u.loc)
  }

  /** The same lists can be read, and the same can be written. */
  ghost predicate SameStatus(doc: Json, d: Json, ts: set<Target>)
  {
    forall t :: t in ts ==>
      && (Read(d, t.loc, t.kind).Bad? <==> Read(doc, t.loc, t.kind).Bad?)
      && (CanPut(d, t.loc) <==> CanPut(doc, t.loc))
  }

  /** A removal needs a readable list; any other edit also a writable one. */
  lemma ApplyOk(doc: Json, t: Target, op: Op, ts: set<Target>)
    requires NonOverlapping(ts) && t in ts && Sound(t.kind, op)
    ensures var o := Apply(doc, t.loc, t.kind, op);
      && (o.ok <==> !Read(doc, t.loc, t.kind).Bad? && (op.Drop? || CanPut(doc, t.loc)))
      && SameStatus(doc, o.doc, ts)
  {
    hide Put, CanPut, Walk, Decodes, Named, Run, Slice;
    var s := Read(doc, t.loc, t.kind);
    if !s.Bad? && Writes(t.kind, op, s) && CanPut(doc, t.loc) {
      var x := ApplyEffect(doc, t.loc, t.kind, op);
      OthersSame(doc, Apply(doc, t.loc, t.kind, op).doc, t, ts);
      RunReadable(t.kind, op, s);
    } else if !s.Bad? && Listed(s) != [] {
      GetPut(doc, t.loc);
    }
  }

  lemma RunReadable(kind: Kind, op: Op, s: Slot)
    ensures Run(kind, op, s).Bad? <==> s.Bad?
  {
  }

  lemma OthersSame(doc: Json, d: Json, t: Target, ts: set<Target>)
    requires NonOverlapping(ts) && t in ts && Editable(doc, t.loc, t.kind) && Editable(d, t.loc, t.kind)
    requires forall q: Loc | !Comparable(t.loc, q) ::
      Walk(d, q) == Walk(doc, q) && (CanPut(d, q) <==> CanPut(doc, q))
    ensures SameStatus(doc, d, ts)
  {
  }

  lemma StatusTrans(a: Json, b: Json, c: Json, ts: set<Target>)
    requires SameStatus(a, b, ts) && SameStatus(b, c, ts)
    ensures SameStatus(a, c, ts)
  {
  }

  lemma {:induction false} DropsOk(doc: Json, t: Target, names: seq<string>, ts: set<Target>)
    requires NonOverlapping(ts) && t in ts
    ensures DropEach(doc, t, names).ok <==> names == [] || !Read(doc, t.loc, t.kind).Bad?
    ensures SameStatus(doc, DropEach(doc, t, names).doc, ts) && SameStatus(doc, DropAll(doc, t, names), ts)
    decreases |names|
  {
    hide Apply, Read, NonOverlapping;
    if names != [] {
      var d := Apply(doc, t.loc, t.kind, Drop(names[0])).doc;
      ApplyOk(doc, t, Drop(names[0]), ts);
      DropsOk(d, t, names[1..], ts);
      StatusTrans(doc, d, DropAll(d, t, names[1..]), ts);
      StatusTrans(doc, d, DropEach(d, t, names[1..]).doc, ts);
    }
  }

  // ---- One container ----

  /** The lists that the handler needs in a container can be used. */
  predicate StepOk(act: Action, b: Binding, doc: Json, c: MetaContainer)
  {
    match act
    case AsEnv => Servable(doc, EnvT(c)) && (b.files || Servable(doc, EnvFromT(c)))
    case AsFiles => Servable(doc, EnvT(c)) && Servable(doc, MountT(c))
    case Removal =>
      (b.env == [] || !Unreadable(doc, EnvT(c))) && !Unreadable(doc, EnvFromT(c)) && !Unreadable(doc, MountT(c))
  }

  predicate Servable(doc: Json, t: Target)
  {
    !Unreadable(doc, t) && CanPut(doc, t.loc)
  }

  lemma UsableSame(doc: Json, d: Json, ts: set<Target>, t: Target)
    requires SameStatus(doc, d, ts) && t in ts
    ensures (Unreadable(d, t) <==> Unreadable(doc, t)) && (Servable(d, t) <==> Servable(doc, t))
  {
    UnreadableIs(doc, t);
    UnreadableIs(d, t);
  }

  lemma AddOk(b: Binding, doc: Json, c: MetaContainer, ts: set<Target>)
    requires NonOverlapping(ts) && EnvT(c) in ts && EnvFromT(c) in ts
    ensures var o := AddEnvFrom(doc, EnvFromT(c), b.secret);
      (o.ok <==> Servable(doc, EnvFromT(c))) && SameStatus(doc, o.doc, ts)
    ensures var o := AddEnvVars(doc, EnvT(c), b); (o.ok <==> Servable(doc, EnvT(c))) && SameStatus(doc, o.doc, ts)
  {
    hide Apply, Read, NonOverlapping, DropAll, SameStatus, Sound, Unreadable, CanPut;
    var t, u := EnvT(c), EnvFromT(c);
    var d := DropAll(doc, t, Variables(b));
    DropsOk(doc, t, Variables(b), ts);
    SoundEnv(b);
    ApplyOk(d, t, Append(EnvEntries(b)), ts);
    UsableIs(d, t);
    UsableSame(doc, d, ts, t);
    StatusTrans(doc, d, Apply(d, t.loc, t.kind, Append(EnvEntries(b))).doc, ts);
    var e := Apply(doc, u.loc, u.kind, Drop(b.secret)).doc;
    SoundDrop(EnvFrom, b.secret);
    ApplyOk(doc, u, Drop(b.secret), ts);
    SoundRef(b.secret);
    ApplyOk(e, u, Append([SecretRefEntry(b.secret)]), ts);
    UsableIs(e, u);
    UsableSame(doc, e, ts, u);
    StatusTrans(doc, e, Apply(e, u.loc, u.kind, Append([SecretRefEntry(b.secret)])).doc, ts);
  }

  lemma SoundDrop(kind: Kind, n: string)
    ensures Sound(kind, Drop(n))
  {
  }

  lemma UsableIs(doc: Json, t: Target)
    ensures Servable(doc, t) <==> !Read(doc, t.loc, t.kind).Bad? && CanPut(doc, t.loc)
  {
    UnreadableIs(doc, t);
  }

  lemma AsEnvOk(b: Binding, doc: Json, c: MetaContainer, ts: set<Target>)
    requires NonOverlapping(ts) && EnvT(c) in ts && EnvFromT(c) in ts
    ensures var o := ContainerStep(AsEnv, b, doc, c);
      (o.ok <==> StepOk(AsEnv, b, doc, c)) && (o.ok ==> SameStatus(doc, o.doc, ts))
  {
    hide AddEnvFrom, AddEnvVars, NonOverlapping, SameStatus, Servable;
    AddOk(b, doc, c, ts);
    if !b.files {
      var d := AddEnvFrom(doc, EnvFromT(c), b.secret).doc;
      AddOk(b, d, c, ts);
      UsableSame(doc, d, ts, EnvT(c));
      StatusTrans(doc, d, AddEnvVars(d, EnvT(c), b).doc, ts);
    }
  }

  lemma AsFilesOk(b: Binding, doc: Json, c: MetaContainer, ts: set<Target>)
    requires NonOverlapping(ts) && EnvT(c) in ts && MountT(c) in ts
    ensures var o := ContainerStep(AsFiles, b, doc, c);
      (o.ok <==> StepOk(AsFiles, b, doc, c)) && (o.ok ==> SameStatus(doc, o.doc, ts))
  {
    hide Apply, NonOverlapping, SameStatus, Servable, RootOf, JoinPath, Read, Sound;
    SoundRoot();
    ApplyOk(doc, EnvT(c), Ensure(BINDING_ROOT_VAR, ROOT_ENTRY), ts);
    UsableIs(doc, EnvT(c));
    var d := Apply(doc, EnvT(c).loc, EnvVar, Ensure(BINDING_ROOT_VAR, ROOT_ENTRY)).doc;
    var path := JoinPath(RootOf(Listed(Read(d, EnvT(c).loc, EnvVar))), b.name);
    SoundMount(b.name, path);
    ApplyOk(d, MountT(c), Upsert(b.name, MountEntry(b.name, path)), ts);
    UsableIs(d, MountT(c));
    UsableSame(doc, d, ts, MountT(c));
    StatusTrans(doc, d, Apply(d, MountT(c).loc, VolumeMount, Upsert(b.name, MountEntry(b.name, path))).doc, ts);
  }

  lemma RemovalOk(b: Binding, doc: Json, c: MetaContainer, ts: set<Target>)
    requires NonOverlapping(ts) && EnvT(c) in ts && EnvFromT(c) in ts && MountT(c) in ts
    ensures var o := ContainerStep(Removal, b, doc, c);
      (o.ok <==> StepOk(Removal, b, doc, c)) && (o.ok ==> SameStatus(doc, o.doc, ts))
  {
    hide Apply, NonOverlapping, SameStatus, Unreadable, DropEach, Read, Sound;
    DropsOk(doc, EnvT(c), SecretKeys(b), ts);
    UnreadableIs(doc, EnvT(c));
    assert SecretKeys(b) == [] <==> b.env == [];
    var d := DropEach(doc, EnvT(c), SecretKeys(b)).doc;
    SoundDrop(EnvFrom, b.secret);
    ApplyOk(d, EnvFromT(c), Drop(b.secret), ts);
    UnreadableIs(d, EnvFromT(c));
    UsableSame(doc, d, ts, EnvFromT(c));
    var e := Apply(d, EnvFromT(c).loc, EnvFrom, Drop(b.secret)).doc;
    StatusTrans(doc, d, e, ts);
    SoundDrop(VolumeMount, b.name);
    ApplyOk(e, MountT(c), Drop(b.name), ts);
    UnreadableIs(e, MountT(c));
    UsableSame(doc, e, ts, MountT(c));
    StatusTrans(doc, e, Apply(e, MountT(c).loc, VolumeMount, Drop(b.name)).doc, ts);
  }

  lemma StepIsOk(act: Action, b: Binding, doc: Json, c: MetaContainer, ts: set<Target>)
    requires NonOverlapping(ts) && EnvT(c) in ts && EnvFromT(c) in ts && MountT(c) in ts
    ensures var o := ContainerStep(act, b, doc, c);
      (o.ok <==> StepOk(act, b, doc, c)) && (o.ok ==> SameStatus(doc, o.doc, ts))
  {
    hide ContainerStep, StepOk, NonOverlapping, SameStatus;
    match act
    case AsEnv => AsEnvOk(b, doc, c, ts);
    case AsFiles => AsFilesOk(b, doc, c, ts);
    case Removal => RemovalOk(b, doc, c, ts);
  }

  lemma StepOkSame(act: Action, b: Binding, doc: Json, d: Json, c: MetaContainer, ts: set<Target>)
    requires SameStatus(doc, d, ts) && EnvT(c) in ts && EnvFromT(c) in ts && MountT(c) in ts
    ensures StepOk(act, b, d, c) <==> StepOk(act, b, doc, c)
  {
    hide SameStatus, Unreadable, Servable;
    UsableSame(doc, d, ts, EnvT(c));
    UsableSame(doc, d, ts, EnvFromT(c));
    UsableSame(doc, d, ts, MountT(c));
  }

  lemma {:induction false} SweepOk(act: Action, b: Binding, doc: Json, cs: seq<MetaContainer>, ts: set<Target>)
    requires NonOverlapping(ts) && forall c :: c in cs ==> EnvT(c) in ts && EnvFromT(c) in ts && MountT(c) in ts
    ensures Sweep(act, b, doc, cs).ok <==> forall c :: c in cs ==> StepOk(act, b, doc, c)
    decreases |cs|
  {
    hide ContainerStep, StepOk, NonOverlapping, SameStatus, EnvT, EnvFromT, MountT;
    if cs != [] {
      assert cs[0] in cs;
      StepIsOk(act, b, doc, cs[0], ts);
      var o := ContainerStep(act, b, doc, cs[0]);
      if o.ok {
        SweepOk(act, b, o.doc, cs[1..], ts);
        forall c | c in cs ensures StepOk(act, b, o.doc, c) <==> StepOk(act, b, doc, c) {
          StepOkSame(act, b, doc, o.doc, c, ts);
        }
      }
    }
  }

  // ---- One workload ----

  /** The lists of the containers that a selection finds are separate. */
  ghost predicate Apportioned(doc: Json, sel: Selection)
  {
    NonOverlapping(SiteTargets(SiteOf(doc, sel)))
  }

  lemma SiteIn(doc: Json, sel: Selection)
    ensures var ts := SiteTargets(SiteOf(doc, sel));
      && VolumeT(sel) in ts
      && forall c :: c in SiteOf(doc, sel).cs ==> EnvT(c) in ts && EnvFromT(c) in ts && MountT(c) in ts
  {
    hide BindablePods, EnvT, EnvFromT, MountT;
    forall c | c in SiteOf(doc, sel).cs
      ensures EnvT(c) in ContainerTargets(SiteOf(doc, sel).cs) && EnvFromT(c) in ContainerTargets(SiteOf(doc, sel).cs)
      ensures MountT(c) in ContainerTargets(SiteOf(doc, sel).cs)
    {
      OwnTargets(SiteOf(doc, sel).cs, c);
    }
  }

  /** Everything that unbinding looks at can be read. */
  ghost predicate Removable(b: Binding, doc: Json, sel: Selection)
  {
    && BindablePods(doc, sel).Some? && !Unreadable(doc, VolumeT(sel))
    && forall c :: c in SiteOf(doc, sel).cs ==> StepOk(Removal, b, doc, c)
  }

  /** Unbinding is done exactly for removable workloads, panics exactly without
      containers, and fails otherwise. */
  lemma UnbindsIff(b: Binding, doc: Json, sel: Selection)
    requires Apportioned(doc, sel)
    ensures UnbindDoc(b, doc, sel).UnbindDone? <==> Removable(b, doc, sel)
    ensures UnbindDoc(b, doc, sel).UnbindPanics? <==> BindablePods(doc, sel).None?
  {
    hide BindablePods, Apply, Sweep, StepOk, SiteTargets, NonOverlapping, Unreadable, EnvT, EnvFromT, MountT, VolumeT,
      SameStatus, Sound;
    if BindablePods(doc, sel).Some? {
      var cs, ts := SiteOf(doc, sel).cs, SiteTargets(SiteOf(doc, sel));
      SiteIn(doc, sel);
      SoundDrop(Volume, b.name);
      VolumeKind(sel);
      ApplyOk(doc, VolumeT(sel), Drop(b.name), ts);
      UnreadableIs(doc, VolumeT(sel));
      var o := Apply(doc, VolumeT(sel).loc, Volume, Drop(b.name));
      if o.ok {
        SweepOk(Removal, b, o.doc, cs, ts);
        forall c | c in cs ensures StepOk(Removal, b, o.doc, c) <==> StepOk(Removal, b, doc, c) {
          StepOkSame(Removal, b, doc, o.doc, c, ts);
        }
      }
    }
  }

  lemma VolumeKind(sel: Selection)
    ensures VolumeT(sel).kind == Volume
  {
  }

  /** Projection into the environment succeeds exactly if there is nothing to
      do, or containers are found and their lists can be used; without
      containers it succeeds exactly for an application with a secret path. */
  lemma AsEnvIff(b: Binding, doc: Json, sel: Selection, lenient: bool)
    requires Apportioned(doc, sel)
    ensures AsEnvDoc(b, doc, sel, lenient).ok <==>
      || (b.files && b.env == [])
      || (if BindablePods(doc, sel).None? then lenient
          else forall c :: c in SiteOf(doc, sel).cs ==> StepOk(AsEnv, b, doc, c))
  {
    hide BindablePods, Sweep, StepOk, SiteTargets, NonOverlapping, EnvT, EnvFromT, MountT;
    SiteIn(doc, sel);
    SweepOk(AsEnv, b, doc, SiteOf(doc, sel).cs, SiteTargets(SiteOf(doc, sel)));
  }

  /** The same for files, which also need the list of volumes. */
  lemma AsFilesIff(b: Binding, doc: Json, sel: Selection, lenient: bool)
    requires Apportioned(doc, sel)
    ensures AsFilesDoc(b, doc, sel, lenient).ok <==>
      || !b.files
      || (if BindablePods(doc, sel).None? then lenient
          else Servable(doc, VolumeT(sel)) && forall c :: c in SiteOf(doc, sel).cs ==> StepOk(AsFiles, b, doc, c))
  {
    hide BindablePods, Sweep, StepOk, SiteTargets, NonOverlapping, EnvT, EnvFromT, MountT, VolumeT, Apply, Servable,
      SameStatus, Sound;
    if BindablePods(doc, sel).Some? {
      var cs, ts := SiteOf(doc, sel).cs, SiteTargets(SiteOf(doc, sel));
      SiteIn(doc, sel);
      SoundVolume(b);
      VolumeKind(sel);
      ApplyOk(doc, VolumeT(sel), Upsert(b.name, VolumeEntry(b)), ts);
      UsableIs(doc, VolumeT(sel));
      var o := Apply(doc, VolumeT(sel).loc, Volume, Upsert(b.name, VolumeEntry(b)));
      if o.ok {
        SweepOk(AsFiles, b, o.doc, cs, ts);
        forall c | c in cs ensures StepOk(AsFiles, b, o.doc, c) <==> StepOk(AsFiles, b, doc, c) {
          StepOkSame(AsFiles, b, doc, o.doc, c, ts);
        }
      }
    }
  }

  // ---- A run ----

  lemma {:induction false} OneStops(b: Binding, docs: seq<Json>, sel: Selection, k: nat)
    requires k < |docs| && !UnbindDoc(b, docs[k], sel).UnbindDone?
    ensures !UnbindAll(b, docs, sel).AllDone?
    ensures (forall j :: 0 <= j < k ==> UnbindDoc(b, docs[j], sel).UnbindDone?) ==>
      (UnbindAll(b, docs, sel).SomePanics? <==> UnbindDoc(b, docs[k], sel).UnbindPanics?)
  {
    hide UnbindDoc;
    if k > 0 {
      OneStops(b, docs[1..], sel, k - 1);
      if forall j :: 0 <= j < k ==> UnbindDoc(b, docs[j], sel).UnbindDone? {
        forall j | 0 <= j < k - 1 ensures UnbindDoc(b, docs[1..][j], sel).UnbindDone? {
          assert docs[1..][j] == docs[j + 1];
        }
      }
    }
  }

  /** The binding has lost neither annotation nor finalizer nor secret, and
      every workload is as it was. */
  ghost predicate NothingLost(s: Cluster, s': Cluster)
    requires s.binding.Some?
  {
    && s'.binding.Some? && s'.apps == s.apps && s'.mapping == s.mapping
    && s'.binding.value.annotation == s.binding.value.annotation
    && s'.binding.value.deleted == s.binding.value.deleted
    && s'.binding.value.secret == s.binding.value.secret
    && (s'.binding.value.finalizers == s.binding.value.finalizers ||
        (!s.binding.value.deleted && s'.binding.value.finalizers == s.binding.value.finalizers + [FINALIZER]))
  }

  /** The run of an unbinding handler that does not come to its end. */
  lemma StuckRun(cfg: Config, s: Cluster, f: Fate)
    requires s.binding.Some? && UnbindRequested(s.binding.value) && f.lookup && s.binding.value.secret != ""
    requires SelectionFor(cfg, Current(s, s.binding.value)).Some? && s.apps != []
    requires var u := UnbindAll(BindingFor(cfg, s.binding.value.secret), s.apps,
                                SelectionFor(cfg, Current(s, s.binding.value)).value);
      !u.AllDone?
    ensures var r := Processed(cfg, s, f);
      var u := UnbindAll(BindingFor(cfg, s.binding.value.secret), s.apps,
                         SelectionFor(cfg, Current(s, s.binding.value)).value);
      && r.1.err && NothingLost(s, r.0) && r.0.binding.value.finalizers == s.binding.value.finalizers
      && (u.SomePanics? || !f.statusWrite || !f.metaWrite <==> r.1.retry)
  {
    hide SelectionFor, UnbindAll, WriteApps;
    HandlersLength(cfg, s, s.binding.value, f);
  }

  /** A workload in the way of unbinding: without containers, or with a list
      that cannot be read. The run ends with an error, and nothing is lost,
      whatever becomes of its writes. If it is the first such workload, the
      error comes with a retry exactly if it has no containers, which is where
      the handler panics, or the binding could not be stored. */
  lemma Obstructed(cfg: Config, s: Cluster, f: Fate, k: nat)
    requires s.binding.Some? && UnbindRequested(s.binding.value) && f.lookup && s.binding.value.secret != ""
    requires SelectionFor(cfg, Current(s, s.binding.value)).Some? && k < |s.apps|
    requires var sel := SelectionFor(cfg, Current(s, s.binding.value)).value;
      && (forall j :: 0 <= j <= k ==> Apportioned(s.apps[j], sel))
      && !Removable(BindingFor(cfg, s.binding.value.secret), s.apps[k], sel)
    ensures Processed(cfg, s, f).1.err && NothingLost(s, Processed(cfg, s, f).0)
    ensures NothingLost(s, Reconciled(cfg, s, f))
    ensures var sel := SelectionFor(cfg, Current(s, s.binding.value)).value;
      (forall j :: 0 <= j < k ==> Removable(BindingFor(cfg, s.binding.value.secret), s.apps[j], sel)) ==>
        (Processed(cfg, s, f).1.retry <==> BindablePods(s.apps[k], sel).None? || !f.statusWrite || !f.metaWrite)
  {
    hide SelectionFor, UnbindAll, UnbindDoc, Removable, BindablePods, Apportioned, Processed;
    var b := s.binding.value;
    var bd, sel := BindingFor(cfg, b.secret), SelectionFor(cfg, Current(s, b)).value;
    forall j | 0 <= j <= k
      ensures UnbindDoc(bd, s.apps[j], sel).UnbindDone? <==> Removable(bd, s.apps[j], sel)
      ensures UnbindDoc(bd, s.apps[j], sel).UnbindPanics? <==> BindablePods(s.apps[j], sel).None?
    {
      UnbindsIff(bd, s.apps[j], sel);
    }
    OneStops(bd, s.apps, sel, k);
    StuckRun(cfg, s, f);
    if !b.deleted && FINALIZER !in b.finalizers {
      var s1 := s.(binding := Some(b.(finalizers := WithFinalizer(b.finalizers))));
      StuckRun(cfg, s1, f);
    }
  }

  // ---- Projection ----

  lemma {:induction false} OneFails(b: Binding, docs: seq<Json>, sel: Selection, lenient: bool, k: nat)
    requires k < |docs|
    ensures !AsEnvDoc(b, docs[k], sel, lenient).ok ==> AsEnvAll(b, docs, sel, lenient).None?
    ensures !AsFilesDoc(b, docs[k], sel, lenient).ok ==> AsFilesAll(b, docs, sel, lenient).None?
  {
    hide AsEnvDoc, AsFilesDoc;
    if k > 0 { OneFails(b, docs[1..], sel, lenient, k - 1); }
  }

  lemma {:induction false} NothingToDo(b: Binding, docs: seq<Json>, sel: Selection, lenient: bool)
    requires b.files && b.env == []
    ensures AsEnvAll(b, docs, sel, lenient) == Some(docs)
  {
    if docs != [] {
      NothingToDo(b, docs[1..], sel, lenient);
      assert [docs[0]] + docs[1..] == docs;
    }
  }

  /** A workload without containers, unless it has a secret path, ends a
      projecting run with an error and, if the binding can be stored, without a
      retry. Workloads and annotation stay; the secret is recorded. */
  lemma Containerless(cfg: Config, s: Cluster, f: Fate, k: nat)
    requires s.binding.Some? && !UnbindRequested(s.binding.value) && f.collection.Collected? && f.lookup
    requires SelectionFor(cfg, s.mapping).Some? && k < |s.apps| && !cfg.lenient
    requires BindablePods(s.apps[k], SelectionFor(cfg, s.mapping).value).None?
    ensures var b, r := s.binding.value, Processed(cfg, s, f);
      && r.1.err && (r.1.retry <==> !f.statusWrite || !f.metaWrite)
      && r.0.apps == s.apps && r.0.binding.Some?
      && r.0.binding.value == b.(
           ready := if f.statusWrite then false else b.ready,
           secret := if f.statusWrite && f.collection.persisted && f.collection.secret != "" then f.collection.secret
                     else b.secret)
  {
    hide SelectionFor, BindablePods, AsEnvAll, AsFilesAll, WriteApps;
    var b, sel := BindingFor(cfg, f.collection.secret), SelectionFor(cfg, s.mapping).value;
    HandlersLength(cfg, s, s.binding.value, f);
    OneFails(b, s.apps, sel, cfg.lenient, k);
    if b.files && b.env == [] { NothingToDo(b, s.apps, sel, cfg.lenient); }
    assert ProjectAll(b, s.apps, sel, cfg.lenient).None?;
  }

  /** A lookup that fails, or a mapping that cannot be converted, ends a
      projecting run before any workload is touched: with a retry and an error if
      the secret had been persisted, and otherwise without an error, and with a
      repetition for a label selector. */
  lemma LookupFails(cfg: Config, s: Cluster, f: Fate)
    requires s.binding.Some? && !UnbindRequested(s.binding.value) && f.collection.Collected?
    requires !f.lookup || SelectionFor(cfg, s.mapping).None?
    ensures var b, r := s.binding.value, Processed(cfg, s, f);
      && r.0.apps == s.apps && r.0.binding.Some?
      && (r.1.err <==> f.collection.persisted || !f.statusWrite || !f.metaWrite)
      && (r.1.retry <==> f.collection.persisted || cfg.selector || !f.statusWrite || !f.metaWrite)
      && r.0.binding.value.annotation == b.annotation && r.0.binding.value.finalizers == b.finalizers
      && r.0.binding.value.secret ==
           if f.statusWrite && f.collection.persisted && f.collection.secret != "" then f.collection.secret
           else b.secret
  {
    hide SelectionFor, WriteApps;
    HandlersLength(cfg, s, s.binding.value, f);
  }

  /** A handler that halts the run before projection leaves the workloads alone;
      a secret that was recorded before is stored with the status. */
  lemma HaltedEarly(cfg: Config, s: Cluster, f: Fate)
    requires s.binding.Some? && !UnbindRequested(s.binding.value) && f.collection.Halted?
    ensures var b, r, st := s.binding.value, Processed(cfg, s, f), Handled(RUNNING, f.collection.conduct);
      && r.0.apps == s.apps && r.0.mapping == s.mapping && r.0.binding.Some?
      && (r.1.err <==> st.err || !f.statusWrite || !f.metaWrite)
      && (r.1.retry <==> st.retry || !f.statusWrite || !f.metaWrite)
      && r.0.binding.value == b.(
           ready := if f.statusWrite then !st.err else b.ready,
           secret := if f.statusWrite && f.collection.recorded.Some? then f.collection.recorded.value else b.secret)
  {
    hide SelectionFor, WriteApps, Handled;
    HandlersLength(cfg, s, s.binding.value, f);
  }
}
