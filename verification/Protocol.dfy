/**
 The protocol around a ServiceBinding over time: the reconciler with its
 finalizer, the pipeline run with its write-back, and the mapping webhook that
 requests a rebind. Every call to the cluster may succeed or fail.
 */
module Protocol {

  import opened Documents
  import opened Entries
  import opened Pods
  import opened Views
  import opened Projection
  import opened Templates
  import opened Stored
  import opened Pipelines

  const FINALIZER := "finalizer.servicebinding.openshift.io"

  /** What does not change about a ServiceBinding and its workloads. The last
      field says which of the two APIs, and so which flow, it belongs to. */
  datatype Config = Config(
    gvr: GroupVersionResource, names: set<string>, extra: Option<ContainersPath>,
    name: string, files: bool, env: seq<EnvBinding>, lenient: bool, selector: bool, spec: bool)

  /** The ServiceBinding object: the mapping annotation, the deletion
      timestamp, and the secret and readiness recorded in its status. */
  datatype BindingObject = BindingObject(
    annotation: Option<ResourceMapping>, deleted: bool, finalizers: seq<string>, secret: string, ready: bool)

  datatype Cluster = Cluster(mapping: Option<ResourceMapping>, binding: Option<BindingObject>, apps: seq<Json>)

  function SelectionFor(cfg: Config, m: Option<ResourceMapping>): Option<Selection>
  {
    var t := ResourceTemplate(m, cfg.gvr.version, cfg.extra);
    if t.None? then None else Some(Selection(t.value, cfg.names))
  }

  /** The mapping in force: the annotated one, or else the stored one. */
  function Current(s: Cluster, b: BindingObject): Option<ResourceMapping>
  {
    if b.annotation.Some? then b.annotation else s.mapping
  }

  function BindingFor(cfg: Config, secret: string): Binding
  {
    Binding(cfg.name, secret, cfg.files, cfg.env)
  }

  // ---- Finalizers ----

  function WithFinalizer(fs: seq<string>): seq<string>
  {
    if FINALIZER in fs then fs else fs + [FINALIZER]
  }

  function WithoutFinalizer(fs: seq<string>): seq<string>
  {
    if fs == [] then [] else if fs[0] == FINALIZER then fs[1..] else [fs[0]] + WithoutFinalizer(fs[1..])
  }

  /** MaybeAddFinalizer. */
  method MaybeAddFinalizer(fs: seq<string>) returns (r: seq<string>, added: bool)
    ensures r == WithFinalizer(fs) && (added <==> FINALIZER !in fs)
    ensures r == if "finalizer.servicebinding.openshift.io" in fs then fs
                 else fs + ["finalizer.servicebinding.openshift.io"]
  {
    var i := 0;
    while i < |fs|
      invariant 0 <= i <= |fs| && FINALIZER !in fs[..i]
    {
      if fs[i] == FINALIZER { return fs, false; }
      i := i + 1;
    }
    assert fs[..i] == fs;
    return fs + [FINALIZER], true;
  }

  lemma {:induction false} WithoutAt(fs: seq<string>, i: nat)
    requires i < |fs| && fs[i] == FINALIZER && FINALIZER !in fs[..i]
    ensures WithoutFinalizer(fs) == fs[..i] + fs[i + 1..]
    decreases i
  {
    if i > 0 {
      assert fs[0] in fs[..i];
      assert fs[1..][..i - 1] == fs[..i][1..];
      WithoutAt(fs[1..], i - 1);
      assert fs[..i] + fs[i + 1..] == [fs[0]] + (fs[1..][..i - 1] + fs[1..][i..]);
    }
  }

  lemma {:induction false} WithoutNone(fs: seq<string>)
    requires FINALIZER !in fs
    ensures WithoutFinalizer(fs) == fs
  {
    if fs != [] { WithoutNone(fs[1..]); }
  }

  /** MaybeRemoveFinalizer. */
  method MaybeRemoveFinalizer(fs: seq<string>) returns (r: seq<string>, removed: bool)
    ensures r == WithoutFinalizer(fs) && (removed <==> FINALIZER in fs)
  {
    var i := 0;
    while i < |fs|
      invariant 0 <= i <= |fs| && FINALIZER !in fs[..i]
    {
      if fs[i] == FINALIZER {
        WithoutAt(fs, i);
        return fs[..i] + fs[i + 1..], true;
      }
      i := i + 1;
    }
    assert fs[..i] == fs;
    WithoutNone(fs);
    return fs, false;
  }

  // ---- One run of the pipeline ----

  /** What the handlers before projection come to: one of them halts the run,
      perhaps after recording a secret, or they hand over the secret to project. */
  datatype Collection =
    | Halted(at: Handler, conduct: Conduct, recorded: Option<string>)
    | Collected(secret: string, persisted: bool)

  /** Which calls of one reconcile succeed. */
  datatype Fate = Fate(
    get: bool, finalizerWrite: bool, lookup: bool, collection: Collection,
    refused: set<nat>, statusWrite: bool, metaWrite: bool, finalWrite: bool)

  /** The in-memory outcome of the handlers: documents, binding, flow status. */
  datatype Pass = Pass(docs: seq<Json>, loaded: bool, touched: bool, memory: BindingObject, retry: bool, err: bool)

  datatype AllUnbound = AllDone(docs: seq<Json>) | SomeFailed | SomePanics

  function UnbindAll(b: Binding, docs: seq<Json>, sel: Selection): AllUnbound
  {
    if docs == [] then AllDone([])
    else match UnbindDoc(b, docs[0], sel)
      case UnbindPanics(_) => SomePanics
      case UnbindFailed(_) => SomeFailed
      case UnbindDone(d) =>
        var rest := UnbindAll(b, docs[1..], sel);
        if rest.AllDone? then AllDone([d] + rest.docs) else rest
  }

  function AsEnvAll(b: Binding, docs: seq<Json>, sel: Selection, lenient: bool): Option<seq<Json>>
  {
    if docs == [] then Some([])
    else
      var o := AsEnvDoc(b, docs[0], sel, lenient);
      var rest := AsEnvAll(b, docs[1..], sel, lenient);
      if !o.ok || rest.None? then None else Some([o.doc] + rest.value)
  }

  function AsFilesAll(b: Binding, docs: seq<Json>, sel: Selection, lenient: bool): Option<seq<Json>>
  {
    if docs == [] then Some([])
    else
      var o := AsFilesDoc(b, docs[0], sel, lenient);
      var rest := AsFilesAll(b, docs[1..], sel, lenient);
      if !o.ok || rest.None? then None else Some([o.doc] + rest.value)
  }

  /** BindingsAsEnv on all applications, then BindingsAsFiles on all. */
  function ProjectAll(b: Binding, docs: seq<Json>, sel: Selection, lenient: bool): Option<seq<Json>>
  {
    var ds := AsEnvAll(b, docs, sel, lenient);
    if ds.None? then None else AsFilesAll(b, ds.value, sel, lenient)
  }

  /** The Unbind handler. A failed lookup and a missing secret end the run quietly. */
  function UnbindHandler(cfg: Config, s: Cluster, m: BindingObject, lookup: bool): Pass
  {
    var sel := SelectionFor(cfg, Current(s, m));
    if !lookup || sel.None? || s.apps == [] then Pass(s.apps, false, false, m, false, false)
    else if m.secret == "" then Pass(s.apps, true, false, m, false, false)
    else match UnbindAll(BindingFor(cfg, m.secret), s.apps, sel.value)
      case SomePanics => Pass(s.apps, true, true, m, true, true)
      case SomeFailed => Pass(s.apps, true, true, m, false, true)
      case AllDone(docs) => Pass(docs, true, true, m.(annotation := None), m.annotation.Some?, false)
  }

  /** The handlers from collection to projection. A secret that could not be
      persisted does not stop the run. */
  function ProjectHandlers(cfg: Config, s: Cluster, m: BindingObject, f: Fate): Pass
  {
    match f.collection
    case Halted(_, conduct, recorded) =>
      var st := Handled(RUNNING, conduct);
      Pass(s.apps, false, false, if recorded.Some? then m.(secret := recorded.value) else m, st.retry, st.err)
    case Collected(secret, persisted) =>
      var m' := if persisted && secret != "" then m.(secret := secret) else m;
      var sel := SelectionFor(cfg, Current(s, m));
      var found := f.lookup && sel.Some?;
      if !found then Pass(s.apps, false, false, m', persisted || cfg.selector, persisted)
      else
        var docs := ProjectAll(BindingFor(cfg, secret), s.apps, sel.value, cfg.lenient);
        if docs.None? then Pass(s.apps, true, true, m', false, true)
        else Pass(docs.value, true, true, m', cfg.selector, false)
  }

  predicate UnbindRequested(m: BindingObject)
  {
    m.annotation.Some? || m.deleted
  }

  function Handlers(cfg: Config, s: Cluster, m: BindingObject, f: Fate): Pass
  {
    if UnbindRequested(m) then UnbindHandler(cfg, s, m, f.lookup) else ProjectHandlers(cfg, s, m, f)
  }

  /** persistBinding: the status first, then the metadata. */
  function PersistBinding(s: Cluster, m: BindingObject, f: Fate): (Cluster, bool)
    requires s.binding.Some?
  {
    if !f.statusWrite then (s, false)
    else
      var b := s.binding.value.(secret := m.secret, ready := m.ready);
      if !f.metaWrite then (s.(binding := Some(b)), false)
      else (s.(binding := Some(b.(annotation := m.annotation, finalizers := m.finalizers))), true)
  }

  /** The application updates of Close, from position `i` on: an application is
      written if it changed or was never looked at; the first refusal ends it. */
  function WriteApps(stored: seq<Json>, docs: seq<Json>, touched: bool, refused: set<nat>, i: nat): (seq<Json>, bool)
    requires |stored| == |docs|
    decreases |docs|
  {
    if docs == [] then ([], true)
    else if (!touched || docs[0] != stored[0]) && i in refused then (stored, false)
    else
      var rest := WriteApps(stored[1..], docs[1..], touched, refused, i + 1);
      ([if docs[0] != stored[0] then Norm(docs[0]) else stored[0]] + rest.0, rest.1)
  }

  /** Close: after an error no application is written. */
  function Close(s: Cluster, p: Pass, f: Fate): (Cluster, bool)
    requires s.binding.Some? && |p.docs| == |s.apps|
  {
    if p.err then PersistBinding(s, p.memory.(ready := false), f)
    else
      var w := if p.loaded then WriteApps(s.apps, p.docs, p.touched, f.refused, 0) else (s.apps, true);
      var s' := s.(apps := w.0);
      if !w.1 then (PersistBinding(s', p.memory.(ready := false), f).0, false)
      else PersistBinding(s', p.memory.(ready := true), f)
  }

  lemma {:induction false} UnbindAllLength(b: Binding, docs: seq<Json>, sel: Selection)
    ensures UnbindAll(b, docs, sel).AllDone? ==> |UnbindAll(b, docs, sel).docs| == |docs|
  {
    if docs != [] { UnbindAllLength(b, docs[1..], sel); }
  }

  lemma {:induction false} AsEnvAllLength(b: Binding, docs: seq<Json>, sel: Selection, lenient: bool)
    ensures AsEnvAll(b, docs, sel, lenient).Some? ==> |AsEnvAll(b, docs, sel, lenient).value| == |docs|
  {
    if docs != [] { AsEnvAllLength(b, docs[1..], sel, lenient); }
  }

  lemma {:induction false} AsFilesAllLength(b: Binding, docs: seq<Json>, sel: Selection, lenient: bool)
    ensures AsFilesAll(b, docs, sel, lenient).Some? ==> |AsFilesAll(b, docs, sel, lenient).value| == |docs|
  {
    if docs != [] { AsFilesAllLength(b, docs[1..], sel, lenient); }
  }

  lemma HandlersLength(cfg: Config, s: Cluster, m: BindingObject, f: Fate)
    ensures |Handlers(cfg, s, m, f).docs| == |s.apps|
  {
    var sel := SelectionFor(cfg, Current(s, m));
    if sel.Some? {
      UnbindAllLength(BindingFor(cfg, m.secret), s.apps, sel.value);
      if f.collection.Collected? {
        var b := BindingFor(cfg, f.collection.secret);
        AsEnvAllLength(b, s.apps, sel.value, cfg.lenient);
        var ds := AsEnvAll(b, s.apps, sel.value, cfg.lenient);
        if ds.Some? { AsFilesAllLength(b, ds.value, sel.value, cfg.lenient); }
      }
    }
  }

  /** Process: the handlers, then Close. A failed Close means retry with an error. */
  function Processed(cfg: Config, s: Cluster, f: Fate): (Cluster, Pass)
    requires s.binding.Some?
  {
    HandlersLength(cfg, s, s.binding.value, f);
    var p := Handlers(cfg, s, s.binding.value, f);
    var c := Close(s, p, f);
    (c.0, if c.1 then p else p.(retry := true, err := true))
  }

  /** A binding under deletion disappears with its last finalizer. */
  function Settle(s: Cluster): Cluster
  {
    if s.binding.Some? && s.binding.value.deleted && s.binding.value.finalizers == [] then s.(binding := None) else s
  }

  /** BindingReconciler.Reconcile. */
  function Reconciled(cfg: Config, s: Cluster, f: Fate): Cluster
  {
    if s.binding.None? || !f.get then s
    else
      var b := s.binding.value;
      var add := !b.deleted && FINALIZER !in b.finalizers;
      if add && !f.finalizerWrite then s
      else
        var s' := if add then s.(binding := Some(b.(finalizers := WithFinalizer(b.finalizers)))) else s;
        var r := Processed(cfg, s', f);
        if && !r.1.retry && !r.1.err && b.deleted && FINALIZER in r.1.memory.finalizers
           && f.finalWrite && r.0.binding.Some?
        then Settle(r.0.(binding := Some(r.0.binding.value.(
               annotation := r.1.memory.annotation, finalizers := WithoutFinalizer(r.1.memory.finalizers)))))
        else r.0
  }

  // ---- The other steps ----

  /** What becomes of a mapping update: refused before or after this binding
      was annotated, or stored. */
  datatype UpdateFate = Refused | RefusedLate | Stored

  datatype Event =
    | Reconcile(f: Fate)
    | CreateMapping(mapping: ResourceMapping)
    | UpdateMapping(mapping: ResourceMapping, u: UpdateFate)
    | DeleteMapping
    | CreateBinding
    | DeleteBinding

  const NEW_BINDING := BindingObject(None, false, [], "", false)

  /** ValidateUpdate with Serialize: bindings on resources that the old mapping
      accepts are annotated with the old mapping before the new one is stored. */
  function MappingUpdated(cfg: Config, s: Cluster, m: ResourceMapping, u: UpdateFate): Cluster
  {
    if s.mapping.None? || !Valid(m) || u.Refused? then s
    else
      var s' := if s.binding.Some? && Accepts(s.mapping.value, cfg.gvr)
                then s.(binding := Some(s.binding.value.(annotation := s.mapping))) else s;
      if u.Stored? then s'.(mapping := Some(m)) else s'
  }

  /** ValidateCreate: a valid mapping is stored, and no binding is annotated. */
  function MappingCreated(s: Cluster, m: ResourceMapping): Cluster
  {
    if s.mapping.None? && Valid(m) then s.(mapping := Some(m)) else s
  }

  /** ValidateDelete: a mapping is deleted without further ado. */
  function MappingDeleted(s: Cluster): Cluster
  {
    s.(mapping := None)
  }

  function BindingCreated(s: Cluster): Cluster
  {
    if s.binding.None? then s.(binding := Some(NEW_BINDING)) else s
  }

  function BindingDeleted(s: Cluster): Cluster
  {
    if s.binding.None? then s else Settle(s.(binding := Some(s.binding.value.(deleted := true))))
  }

  function Next(cfg: Config, s: Cluster, step: Event): Cluster
  {
    match step
    case Reconcile(f) => Reconciled(cfg, s, f)
    case CreateMapping(m) => MappingCreated(s, m)
    case UpdateMapping(m, u) => MappingUpdated(cfg, s, m, u)
    case DeleteMapping => MappingDeleted(s)
    case CreateBinding => BindingCreated(s)
    case DeleteBinding => BindingDeleted(s)
  }

  /** The state after a sequence of steps. */
  function After(cfg: Config, s: Cluster, steps: seq<Event>): Cluster
    decreases |steps|
  {
    if steps == [] then s else After(cfg, Next(cfg, s, steps[0]), steps[1..])
  }

  lemma AfterThree(cfg: Config, s: Cluster, a: Event, b: Event, c: Event)
    ensures After(cfg, s, [a, b, c]) == Next(cfg, Next(cfg, Next(cfg, s, a), b), c)
  {
    hide Next;
    assert [a, b, c][1..] == [b, c] && [b, c][1..] == [c] && [c][1..] == [];
    var t := Next(cfg, s, a);
    var u := Next(cfg, t, b);
    assert After(cfg, u, [c]) == After(cfg, Next(cfg, u, c), []);
    assert After(cfg, t, [b, c]) == After(cfg, u, [c]);
  }
}
