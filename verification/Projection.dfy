/**
 What projecting a binding into a workload, and removing it again, does to the
 workload's document (the handlers BindingsAsEnv, BindingsAsFiles and Unbind),
 and the same steps on views. Every document step refines its view step.
 */
module Projection {

  import opened Documents
  import opened Entries
  import opened Pods
  import opened Views

  const BINDING_ROOT_VAR := "SERVICE_BINDING_ROOT"
  const BINDING_ROOT := "/bindings"

  /** An environment variable requested by the binding, and the secret key it shows. */
  datatype EnvBinding = EnvBinding(variable: string, key: string)

  /** What the handlers ask of the context of one ServiceBinding. */
  datatype Binding = Binding(name: string, secret: string, files: bool, env: seq<EnvBinding>)

  // ---- Entries the operator creates ----

  /** A string field that is omitted when empty. */
  function Optional(k: string, s: string): map<string, Json>
  {
    if s == "" then map[] else map[k := Str(s)]
  }

  function VolumeEntry(b: Binding): Json
  {
    Obj(map["name" := Str(b.name), "secret" := Obj(Optional("secretName", b.secret))])
  }

  function MountEntry(name: string, path: string): Json
  {
    Obj(map["name" := Str(name), "mountPath" := Str(path)])
  }

  const ROOT_ENTRY: Json := Obj(map["name" := Str(BINDING_ROOT_VAR), "value" := Str(BINDING_ROOT)])

  function SecretRefEntry(secret: string): Json
  {
    Obj(map["secretRef" := Obj(Optional("name", secret))])
  }

  function EnvEntry(e: EnvBinding, secret: string): Json
  {
    Obj(map["name" := Str(e.variable),
            "valueFrom" := Obj(map["secretKeyRef" := Obj(Optional("name", secret)["key" := Str(e.key)])])])
  }

  function EnvEntries(b: Binding): seq<Json>
  {
    seq(|b.env|, i requires 0 <= i < |b.env| => EnvEntry(b.env[i], b.secret))
  }

  function Variables(b: Binding): seq<string>
  {
    seq(|b.env|, i requires 0 <= i < |b.env| => b.env[i].variable)
  }

  function SecretKeys(b: Binding): seq<string>
  {
    seq(|b.env|, i requires 0 <= i < |b.env| => b.env[i].key)
  }

  /** Joins a mount root and a binding name. */
  function JoinPath(root: string, name: string): string
  {
    if root == "" then name else root + "/" + name
  }

  /** The value of the first entry that sets the binding root. */
  function RootOf(xs: seq<Json>): string
  {
    if xs == [] then BINDING_ROOT
    else if Named(EnvVar, xs[0], BINDING_ROOT_VAR) then StringOf(xs[0].fields, "value")
    else RootOf(xs[1..])
  }

  function EnvT(c: MetaContainer): Target { Target(c.loc + Keys(c.env), EnvVar) }
  function EnvFromT(c: MetaContainer): Target { Target(c.loc + Keys(c.envFrom), EnvFrom) }
  function MountT(c: MetaContainer): Target { Target(c.loc + Keys(c.volumeMount), VolumeMount) }
  function VolumeT(sel: Selection): Target { Target(Keys(sel.mapping.volume), Volume) }

  // ---- Documents ----

  datatype Action = AsEnv | AsFiles | Removal

  /** Removals whose errors are ignored. */
  function DropAll(doc: Json, t: Target, names: seq<string>): Json
    decreases |names|
  {
    if names == [] then doc
    else DropAll(Apply(doc, t.loc, t.kind, Drop(names[0])).doc, t, names[1..])
  }

  /** Removals that stop at the first error. */
  function DropEach(doc: Json, t: Target, names: seq<string>): Outcome
    decreases |names|
  {
    if names == [] then Outcome(doc, true)
    else
      var o := Apply(doc, t.loc, t.kind, Drop(names[0]));
      if !o.ok then o else DropEach(o.doc, t, names[1..])
  }

  /** AddEnvVars. */
  function AddEnvVars(doc: Json, t: Target, b: Binding): Outcome
  {
    Apply(DropAll(doc, t, Variables(b)), t.loc, t.kind, Append(EnvEntries(b)))
  }

  /** AddEnvFromVar. */
  function AddEnvFrom(doc: Json, t: Target, secret: string): Outcome
  {
    Apply(Apply(doc, t.loc, t.kind, Drop(secret)).doc, t.loc, t.kind, Append([SecretRefEntry(secret)]))
  }

  /** The handler's work on one container. */
  function ContainerStep(act: Action, b: Binding, doc: Json, c: MetaContainer): Outcome
  {
    match act
    case AsEnv =>
      var o := if b.files then Outcome(doc, true) else AddEnvFrom(doc, EnvFromT(c), b.secret);
      if !o.ok then o else AddEnvVars(o.doc, EnvT(c), b)
    case AsFiles =>
      var o := Apply(doc, EnvT(c).loc, EnvVar, Ensure(BINDING_ROOT_VAR, ROOT_ENTRY));
      if !o.ok then o
      else
        var path := JoinPath(RootOf(Listed(Read(o.doc, EnvT(c).loc, EnvVar))), b.name);
        Apply(o.doc, MountT(c).loc, VolumeMount, Upsert(b.name, MountEntry(b.name, path)))
    case Removal =>
      var o := DropEach(doc, EnvT(c), SecretKeys(b));
      if !o.ok then o
      else
        var p := Apply(o.doc, EnvFromT(c).loc, EnvFrom, Drop(b.secret));
        if !p.ok then p else Apply(p.doc, MountT(c).loc, VolumeMount, Drop(b.name))
  }

  function Sweep(act: Action, b: Binding, doc: Json, cs: seq<MetaContainer>): Outcome
    decreases |cs|
  {
    if cs == [] then Outcome(doc, true)
    else
      var o := ContainerStep(act, b, doc, cs[0]);
      if !o.ok then o else Sweep(act, b, o.doc, cs[1..])
  }

  /** BindingsAsEnv on one application. An application with a secret path
      (`lenient`) is passed over when its containers cannot be found. */
  function AsEnvDoc(b: Binding, doc: Json, sel: Selection, lenient: bool): Outcome
  {
    if b.files && b.env == [] then Outcome(doc, true)
    else match BindablePods(doc, sel)
      case None => Outcome(doc, lenient)
      case Some(cs) => Sweep(AsEnv, b, doc, cs)
  }

  /** BindingsAsFiles on one application. */
  function AsFilesDoc(b: Binding, doc: Json, sel: Selection, lenient: bool): Outcome
  {
    if !b.files then Outcome(doc, true)
    else match BindablePods(doc, sel)
      case None => Outcome(doc, lenient)
      case Some(cs) =>
        var o := Apply(doc, VolumeT(sel).loc, Volume, Upsert(b.name, VolumeEntry(b)));
        if !o.ok then o else Sweep(AsFiles, b, o.doc, cs)
  }

  function ProjectDoc(b: Binding, doc: Json, sel: Selection, lenient: bool): Outcome
  {
    var o := AsEnvDoc(b, doc, sel, lenient);
    if !o.ok then o else AsFilesDoc(b, o.doc, sel, lenient)
  }

  datatype UnbindOutcome = UnbindDone(doc: Json) | UnbindFailed(doc: Json) | UnbindPanics(doc: Json)

  /** Unbind on one application: without containers the code dereferences a nil pod spec. */
  function UnbindDoc(b: Binding, doc: Json, sel: Selection): UnbindOutcome
  {
    match BindablePods(doc, sel)
    case None => UnbindPanics(doc)
    case Some(cs) =>
      var o := Apply(doc, VolumeT(sel).loc, Volume, Drop(b.name));
      if !o.ok then UnbindFailed(o.doc)
      else
        var p := Sweep(Removal, b, o.doc, cs);
        if p.ok then UnbindDone(p.doc) else UnbindFailed(p.doc)
  }

  // ---- Views ----

  function DropAllV(v: View, t: Target, names: seq<string>): (w: View)
    requires t in v
    ensures w.Keys == v.Keys
    decreases |names|
  {
    if names == [] then v else DropAllV(Edit(v, t, Drop(names[0])), t, names[1..])
  }

  predicate Covers(v: View, c: MetaContainer)
  {
    EnvT(c) in v && EnvFromT(c) in v && MountT(c) in v
  }

  predicate CoversAll(v: View, cs: seq<MetaContainer>)
  {
    forall c :: c in cs ==> Covers(v, c)
  }

  lemma CoversTail(v: View, w: View, cs: seq<MetaContainer>)
    requires v.Keys == w.Keys && CoversAll(v, cs) && cs != []
    ensures CoversAll(w, cs[1..])
  {
    forall c | c in cs[1..] ensures Covers(w, c) { assert Covers(v, c); }
  }

  lemma {:induction false} DropAllVKeeps(v: View, t: Target, names: seq<string>)
    requires t in v
    ensures forall u :: u in v && u != t ==> DropAllV(v, t, names)[u] == v[u]
    decreases |names|
  {
    if names != [] { DropAllVKeeps(Edit(v, t, Drop(names[0])), t, names[1..]); }
  }

  function StepV(act: Action, b: Binding, v: View, c: MetaContainer): (w: View)
    requires Covers(v, c)
    ensures w.Keys == v.Keys
  {
    match act
    case AsEnv =>
      var w := if b.files then v
               else Edit(Edit(v, EnvFromT(c), Drop(b.secret)), EnvFromT(c), Append([SecretRefEntry(b.secret)]));
      Edit(DropAllV(w, EnvT(c), Variables(b)), EnvT(c), Append(EnvEntries(b)))
    case AsFiles =>
      var w := Edit(v, EnvT(c), Ensure(BINDING_ROOT_VAR, ROOT_ENTRY));
      var path := JoinPath(RootOf(Listed(w[EnvT(c)])), b.name);
      Edit(w, MountT(c), Upsert(b.name, MountEntry(b.name, path)))
    case Removal =>
      Edit(Edit(DropAllV(v, EnvT(c), SecretKeys(b)), EnvFromT(c), Drop(b.secret)), MountT(c), Drop(b.name))
  }

  function SweepV(act: Action, b: Binding, v: View, cs: seq<MetaContainer>): (w: View)
    requires CoversAll(v, cs)
    ensures w.Keys == v.Keys
    decreases |cs|
  {
    if cs == [] then v
    else
      CoversTail(v, StepV(act, b, v, cs[0]), cs);
      SweepV(act, b, StepV(act, b, v, cs[0]), cs[1..])
  }

  /** A selection together with the containers it finds. */
  datatype Site = Site(sel: Selection, cs: seq<MetaContainer>)

  predicate Fits(v: View, site: Site)
  {
    VolumeT(site.sel) in v && CoversAll(v, site.cs)
  }

  function ProjectV(b: Binding, v: View, site: Site): (w: View)
    requires Fits(v, site)
    ensures w.Keys == v.Keys
  {
    var w := if b.files && b.env == [] then v else SweepV(AsEnv, b, v, site.cs);
    if b.files
    then SweepV(AsFiles, b, Edit(w, VolumeT(site.sel), Upsert(b.name, VolumeEntry(b))), site.cs)
    else w
  }

  function UnbindV(b: Binding, v: View, site: Site): (w: View)
    requires Fits(v, site)
    ensures w.Keys == v.Keys
  {
    SweepV(Removal, b, Edit(v, VolumeT(site.sel), Drop(b.name)), site.cs)
  }

  // ---- Refinement ----

  lemma SoundVolume(b: Binding)
    ensures Sound(Volume, Upsert(b.name, VolumeEntry(b)))
  {
    PlainObj(Optional("secretName", b.secret));
    PlainObj(VolumeEntry(b).fields);
  }

  lemma SoundMount(name: string, path: string)
    ensures Sound(VolumeMount, Upsert(name, MountEntry(name, path)))
  {
    PlainObj(MountEntry(name, path).fields);
  }

  lemma SoundRoot()
    ensures Sound(EnvVar, Ensure(BINDING_ROOT_VAR, ROOT_ENTRY))
  {
    PlainObj(ROOT_ENTRY.fields);
  }

  lemma SoundRef(secret: string)
    ensures Sound(EnvFrom, Append([SecretRefEntry(secret)]))
  {
    PlainObj(Optional("name", secret));
    PlainObj(SecretRefEntry(secret).fields);
  }

  lemma SoundEnv(b: Binding)
    ensures Sound(EnvVar, Append(EnvEntries(b)))
  {
    forall i | 0 <= i < |b.env| ensures Plain(EnvEntries(b)[i]) {
      var ref := Optional("name", b.secret)["key" := Str(b.env[i].key)];
      PlainObj(ref);
      PlainObj(map["secretKeyRef" := Obj(ref)]);
      PlainObj(EnvEntry(b.env[i], b.secret).fields);
    }
  }

  /** What a document step owes its view step. */
  ghost predicate Refines(o: Outcome, w: View, doc: Json, ts: set<Target>, sels: set<Selection>)
  {
    o.ok && Follows(doc, o.doc, ts, sels) && ViewOf(o.doc, ts) == w
  }

  lemma {:induction false} DropAllRefines(
    doc: Json, ts: set<Target>, sels: set<Selection>, t: Target, names: seq<string>)
    requires Tidy(doc, ts, sels) && t in ts
    ensures Refines(Outcome(DropAll(doc, t, names), true), DropAllV(ViewOf(doc, ts), t, names), doc, ts, sels)
    ensures DropEach(doc, t, names) == Outcome(DropAll(doc, t, names), true)
    decreases |names|
  {
    if names == [] {
      FollowsSelf(doc, ts, sels);
    } else {
      var d := Apply(doc, t.loc, t.kind, Drop(names[0])).doc;
      ApplyFollows(doc, ts, sels, t, Drop(names[0]));
      DropAllRefines(d, ts, sels, t, names[1..]);
      FollowsTrans(doc, d, DropAll(doc, t, names), ts, sels);
    }
  }

  /** Two edits in a row. */
  lemma ThenApply(doc: Json, d: Json, w: View, ts: set<Target>, sels: set<Selection>, t: Target, op: Op)
    requires Refines(Outcome(d, true), w, doc, ts, sels) && t in ts && Sound(t.kind, op)
    ensures Refines(Apply(d, t.loc, t.kind, op), Edit(w, t, op), doc, ts, sels)
  {
    ApplyFollows(d, ts, sels, t, op);
    FollowsTrans(doc, d, Apply(d, t.loc, t.kind, op).doc, ts, sels);
  }

  lemma StepRefines(act: Action, b: Binding, doc: Json, ts: set<Target>, sels: set<Selection>, c: MetaContainer)
    requires Tidy(doc, ts, sels) && Covers(ViewOf(doc, ts), c)
    ensures Refines(ContainerStep(act, b, doc, c), StepV(act, b, ViewOf(doc, ts), c), doc, ts, sels)
  {
    match act
    case AsEnv => EnvStepRefines(b, doc, ts, sels, c);
    case AsFiles => FilesStepRefines(b, doc, ts, sels, c);
    case Removal => RemovalRefines(b, doc, ts, sels, c);
  }

  lemma EnvStepRefines(b: Binding, doc: Json, ts: set<Target>, sels: set<Selection>, c: MetaContainer)
    requires Tidy(doc, ts, sels) && Covers(ViewOf(doc, ts), c)
    ensures Refines(ContainerStep(AsEnv, b, doc, c), StepV(AsEnv, b, ViewOf(doc, ts), c), doc, ts, sels)
  {
    var v := ViewOf(doc, ts);
    FollowsSelf(doc, ts, sels);
    var d, w := doc, v;
    if !b.files {
      var t := EnvFromT(c);
      ThenApply(doc, doc, v, ts, sels, t, Drop(b.secret));
      var d1 := Apply(doc, t.loc, t.kind, Drop(b.secret)).doc;
      SoundRef(b.secret);
      ThenApply(doc, d1, Edit(v, t, Drop(b.secret)), ts, sels, t, Append([SecretRefEntry(b.secret)]));
      d := AddEnvFrom(doc, t, b.secret).doc;
      w := Edit(Edit(v, t, Drop(b.secret)), t, Append([SecretRefEntry(b.secret)]));
    }
    DropAllRefines(d, ts, sels, EnvT(c), Variables(b));
    var e := DropAll(d, EnvT(c), Variables(b));
    FollowsTrans(doc, d, e, ts, sels);
    SoundEnv(b);
    ThenApply(doc, e, DropAllV(w, EnvT(c), Variables(b)), ts, sels, EnvT(c), Append(EnvEntries(b)));
  }

  lemma FilesStepRefines(b: Binding, doc: Json, ts: set<Target>, sels: set<Selection>, c: MetaContainer)
    requires Tidy(doc, ts, sels) && Covers(ViewOf(doc, ts), c)
    ensures Refines(ContainerStep(AsFiles, b, doc, c), StepV(AsFiles, b, ViewOf(doc, ts), c), doc, ts, sels)
  {
    SoundRoot();
    ApplyFollows(doc, ts, sels, EnvT(c), Ensure(BINDING_ROOT_VAR, ROOT_ENTRY));
    var d := Apply(doc, EnvT(c).loc, EnvVar, Ensure(BINDING_ROOT_VAR, ROOT_ENTRY)).doc;
    var w := Edit(ViewOf(doc, ts), EnvT(c), Ensure(BINDING_ROOT_VAR, ROOT_ENTRY));
    assert w[EnvT(c)] == Read(d, EnvT(c).loc, EnvVar);
    var path := JoinPath(RootOf(Listed(w[EnvT(c)])), b.name);
    SoundMount(b.name, path);
    ThenApply(doc, d, w, ts, sels, MountT(c), Upsert(b.name, MountEntry(b.name, path)));
  }

  lemma RemovalRefines(b: Binding, doc: Json, ts: set<Target>, sels: set<Selection>, c: MetaContainer)
    requires Tidy(doc, ts, sels) && Covers(ViewOf(doc, ts), c)
    ensures Refines(ContainerStep(Removal, b, doc, c), StepV(Removal, b, ViewOf(doc, ts), c), doc, ts, sels)
  {
    var v := ViewOf(doc, ts);
    DropAllRefines(doc, ts, sels, EnvT(c), SecretKeys(b));
    var d, w := DropAll(doc, EnvT(c), SecretKeys(b)), DropAllV(v, EnvT(c), SecretKeys(b));
    ThenApply(doc, d, w, ts, sels, EnvFromT(c), Drop(b.secret));
    var e := Apply(d, EnvFromT(c).loc, EnvFrom, Drop(b.secret)).doc;
    ThenApply(doc, e, Edit(w, EnvFromT(c), Drop(b.secret)), ts, sels, MountT(c), Drop(b.name));
  }

  lemma RefinesFrom(doc: Json, d: Json, o: Outcome, w: View, ts: set<Target>, sels: set<Selection>)
    requires Follows(doc, d, ts, sels) && Refines(o, w, d, ts, sels)
    ensures Refines(o, w, doc, ts, sels)
  {
    FollowsTrans(doc, d, o.doc, ts, sels);
  }

  lemma {:induction false} SweepRefines(
    act: Action, b: Binding, doc: Json, ts: set<Target>, sels: set<Selection>, cs: seq<MetaContainer>)
    requires Tidy(doc, ts, sels) && CoversAll(ViewOf(doc, ts), cs)
    ensures Refines(Sweep(act, b, doc, cs), SweepV(act, b, ViewOf(doc, ts), cs), doc, ts, sels)
    decreases |cs|
  {
    if cs == [] {
      FollowsSelf(doc, ts, sels);
    } else {
      assert Covers(ViewOf(doc, ts), cs[0]);
      StepRefines(act, b, doc, ts, sels, cs[0]);
      var o, w := ContainerStep(act, b, doc, cs[0]), StepV(act, b, ViewOf(doc, ts), cs[0]);
      CoversTail(ViewOf(doc, ts), w, cs);
      SweepRefines(act, b, o.doc, ts, sels, cs[1..]);
      RefinesFrom(doc, o.doc, Sweep(act, b, o.doc, cs[1..]), SweepV(act, b, w, cs[1..]), ts, sels);
    }
  }

  /** The document has the site's containers and its lists are all among `ts`. */
  ghost predicate Ready(doc: Json, ts: set<Target>, sels: set<Selection>, site: Site)
  {
    && Tidy(doc, ts, sels) && site.sel in sels && BindablePods(doc, site.sel) == Some(site.cs)
    && Fits(ViewOf(doc, ts), site)
  }

  lemma ReadyKept(doc: Json, d: Json, ts: set<Target>, sels: set<Selection>, site: Site)
    requires Ready(doc, ts, sels, site) && Follows(doc, d, ts, sels)
    ensures Ready(d, ts, sels, site)
  {
    FollowsPods(doc, d, ts, sels, site.sel);
  }

  /** Projection of a binding refines its projection on views. */
  lemma ProjectRefines(b: Binding, doc: Json, ts: set<Target>, sels: set<Selection>, site: Site, lenient: bool)
    requires Ready(doc, ts, sels, site)
    ensures Refines(ProjectDoc(b, doc, site.sel, lenient), ProjectV(b, ViewOf(doc, ts), site), doc, ts, sels)
  {
    var o := AsEnvDoc(b, doc, site.sel, lenient);
    var w := if b.files && b.env == [] then ViewOf(doc, ts) else SweepV(AsEnv, b, ViewOf(doc, ts), site.cs);
    if b.files && b.env == [] {
      FollowsSelf(doc, ts, sels);
    } else {
      SweepRefines(AsEnv, b, doc, ts, sels, site.cs);
    }
    assert Refines(o, w, doc, ts, sels);
    if b.files {
      ReadyKept(doc, o.doc, ts, sels, site);
      FilesRefines(b, o.doc, ts, sels, site, lenient);
      FollowsTrans(doc, o.doc, AsFilesDoc(b, o.doc, site.sel, lenient).doc, ts, sels);
    }
  }

  lemma FilesRefines(b: Binding, doc: Json, ts: set<Target>, sels: set<Selection>, site: Site, lenient: bool)
    requires Ready(doc, ts, sels, site) && b.files
    ensures Refines(AsFilesDoc(b, doc, site.sel, lenient),
      SweepV(AsFiles, b, Edit(ViewOf(doc, ts), VolumeT(site.sel), Upsert(b.name, VolumeEntry(b))), site.cs), doc,
        ts, sels)
  {
    SoundVolume(b);
    ApplyFollows(doc, ts, sels, VolumeT(site.sel), Upsert(b.name, VolumeEntry(b)));
    var d := Apply(doc, VolumeT(site.sel).loc, Volume, Upsert(b.name, VolumeEntry(b))).doc;
    SweepRefines(AsFiles, b, d, ts, sels, site.cs);
    FollowsTrans(doc, d, AsFilesDoc(b, doc, site.sel, lenient).doc, ts, sels);
  }

  lemma UnbindRefines(b: Binding, doc: Json, ts: set<Target>, sels: set<Selection>, site: Site)
    requires Ready(doc, ts, sels, site)
    ensures UnbindDoc(b, doc, site.sel).UnbindDone?
    ensures Refines(Outcome(UnbindDoc(b, doc, site.sel).doc, true), UnbindV(b, ViewOf(doc, ts), site), doc, ts, sels)
  {
    ApplyFollows(doc, ts, sels, VolumeT(site.sel), Drop(b.name));
    var d := Apply(doc, VolumeT(site.sel).loc, Volume, Drop(b.name)).doc;
    SweepRefines(Removal, b, d, ts, sels, site.cs);
    FollowsTrans(doc, d, UnbindDoc(b, doc, site.sel).doc, ts, sels);
  }
}
