/**
 The life of a binding: a mapping update moves its entries, a deletion removes
 them before the finalizer goes, and the ways in which entries are left behind.
 */
module Lifecycle {

  import opened Documents
  import opened Entries
  import opened Pods
  import opened Views
  import opened Projection
  import opened Templates
  import opened Stored
  import opened Signs
  import opened Pipelines
  import opened Protocol
  import opened Rebinding

  /** Every call succeeds. */
  predicate Favourable(f: Fate)
  {
    f.get && f.finalizerWrite && f.lookup && f.refused == {} && f.statusWrite && f.metaWrite && f.finalWrite
  }

  /** No list of any workload shows the sign. */
  ghost predicate NoneBound(s: Cluster, realms: seq<Realm>, x: Sign)
  {
    Housed(s, realms) && forall k :: 0 <= k < |realms| ==> NotBound(s.apps[k], realms[k], x)
  }

  lemma {:induction false} AllProjectable(b: Binding, docs: seq<Json>, sel: Selection, lenient: bool)
    requires forall k :: 0 <= k < |docs| ==> ProjectDoc(b, docs[k], sel, lenient).ok
    ensures ProjectAll(b, docs, sel, lenient).Some?
  {
    hide AsEnvDoc, AsFilesDoc;
    if docs != [] {
      assert ProjectDoc(b, docs[0], sel, lenient).ok;
      AllProjectable(b, docs[1..], sel, lenient);
    }
  }

  /** With favourable calls an unbinding run stores every workload unbound, and
      asks for a retry exactly if it consumed an annotation. */
  lemma UnbindStores(cfg: Config, s: Cluster, f: Fate, realms: seq<Realm>)
    requires Housed(s, realms) && s.binding.Some? && s.apps != [] && Favourable(f)
    requires UnbindRequested(s.binding.value) && s.binding.value.secret != ""
    requires Charted(cfg, Current(s, s.binding.value), realms)
    ensures var b, r := s.binding.value, Processed(cfg, s, f);
      && r.0.binding == Some(b.(annotation := None, ready := true))
      && r.0.mapping == s.mapping
      && |r.0.apps| == |s.apps|
      && (forall k :: 0 <= k < |s.apps| ==>
            r.0.apps[k] == Unbound(BindingFor(cfg, b.secret), s.apps[k], SelectionFor(cfg, Current(s, b)).value))
      && r.1.memory == b.(annotation := None) && !r.1.err && r.1.retry == b.annotation.Some?
  {
    hide AtHome, Norm, SelectionFor, UnbindDoc, WriteApps, Unbound, Plain;
    var b := s.binding.value;
    var sel := SelectionFor(cfg, Current(s, b)).value;
    var bd := BindingFor(cfg, b.secret);
    forall k | 0 <= k < |realms| ensures Plain(s.apps[k]) && UnbindDoc(bd, s.apps[k], sel).UnbindDone? {
      HomePlain(s.apps[k], realms[k]);
      UnboundHome(bd, s.apps[k], realms[k], sel);
    }
    AllUnbindable(bd, s.apps, sel);
    HandlersLength(cfg, s, b, f);
    var p := Handlers(cfg, s, b, f);
    WriteLength(s.apps, p.docs, p.touched, f.refused, 0);
    forall k | 0 <= k < |realms| ensures Processed(cfg, s, f).0.apps[k] == Unbound(bd, s.apps[k], sel) {
      CloseDocs(s, p, f, k);
      UnbindAllAt(bd, s.apps, sel, k);
      UnboundIs(bd, s.apps[k], sel);
    }
  }

  /** After an unbinding run no list of any workload shows the sign. */
  lemma UnbindRun(cfg: Config, s: Cluster, f: Fate, realms: seq<Realm>, x: Sign)
    requires InPlace(cfg, s, realms, x) && s.binding.Some? && s.apps != [] && Favourable(f)
    requires UnbindRequested(s.binding.value) && s.binding.value.secret != ""
    ensures var b, r := s.binding.value, Processed(cfg, s, f);
      && r.0.binding == Some(b.(annotation := None, ready := true)) && r.0.mapping == s.mapping
      && NoneBound(r.0, realms, x)
      && r.1.memory == b.(annotation := None) && !r.1.err && r.1.retry == b.annotation.Some?
  {
    hide AtHome, SelectionFor, Placed, NotBound, Processed, Unbound, Removes, Sane;
    UnbindStores(cfg, s, f, realms);
    var b := s.binding.value;
    forall k | 0 <= k < |realms|
      ensures var e := Processed(cfg, s, f).0.apps[k]; AtHome(e, realms[k]) && NotBound(e, realms[k], x)
    {
      PlacedUnbound(BindingFor(cfg, b.secret), s.apps[k], realms[k], SelectionFor(cfg, Current(s, b)).value, x);
    }
  }

  lemma UnboundIs(b: Binding, d: Json, sel: Selection)
    ensures Unbound(b, d, sel) == Norm(UnbindDoc(b, d, sel).doc)
  {
  }

  /** Every list of the mapping that can show the sign shows it once, and no other list does. */
  ghost predicate BoundExactly(cfg: Config, s: Cluster, m: Option<ResourceMapping>, realms: seq<Realm>, x: Sign)
  {
    && Housed(s, realms) && Charted(cfg, m, realms)
    && forall k, t :: 0 <= k < |realms| && t in realms[k].ts && Shows(t, x) ==>
         SignCount(s.apps[k], t, x) == if Owns(SiteFor(cfg, m, realms[k]), t, x) then 1 else 0
  }

  /** With favourable calls a projecting run stores every workload bound, and
      records the secret that it persisted. */
  lemma ProjectStores(cfg: Config, s: Cluster, f: Fate, realms: seq<Realm>)
    requires Housed(s, realms) && s.binding.Some? && Favourable(f) && Charted(cfg, s.mapping, realms)
    requires !UnbindRequested(s.binding.value) && f.collection.Collected?
    ensures var b, r := s.binding.value, Processed(cfg, s, f);
      && r.0.binding == Some(b.(ready := true,
           secret := if f.collection.persisted && f.collection.secret != "" then f.collection.secret else b.secret))
      && r.0.mapping == s.mapping && |r.0.apps| == |s.apps| && !r.1.err && r.1.retry == cfg.selector
      && (forall k :: 0 <= k < |s.apps| ==>
            r.0.apps[k] == Bound(BindingFor(cfg, f.collection.secret), s.apps[k],
              SelectionFor(cfg, s.mapping).value, cfg.lenient))
  {
    hide AtHome, Norm, SelectionFor, WriteApps, Bound, Plain, ProjectDoc;
    var b := s.binding.value;
    var sel := SelectionFor(cfg, s.mapping).value;
    var bd := BindingFor(cfg, f.collection.secret);
    forall k | 0 <= k < |realms| ensures Plain(s.apps[k]) && ProjectDoc(bd, s.apps[k], sel, cfg.lenient).ok {
      HomePlain(s.apps[k], realms[k]);
      ProjectsOk(bd, s.apps[k], realms[k], sel, cfg.lenient);
    }
    AllProjectable(bd, s.apps, sel, cfg.lenient);
    HandlersLength(cfg, s, b, f);
    var p := Handlers(cfg, s, b, f);
    WriteLength(s.apps, p.docs, p.touched, f.refused, 0);
    forall k | 0 <= k < |realms| ensures Processed(cfg, s, f).0.apps[k] == Bound(bd, s.apps[k], sel, cfg.lenient) {
      CloseDocs(s, p, f, k);
      ProjectEach(bd, s.apps, sel, cfg.lenient, k);
      BoundIs(bd, s.apps[k], sel, cfg.lenient);
    }
  }

  /** After a projecting run that leaves the sign, the sign is exactly at the
      places of the mapping in force. */
  lemma ProjectRun(cfg: Config, s: Cluster, f: Fate, realms: seq<Realm>, x: Sign)
    requires InPlace(cfg, s, realms, x) && s.binding.Some? && Favourable(f)
    requires !UnbindRequested(s.binding.value)
    requires f.collection.Collected? && Leaves(BindingFor(cfg, f.collection.secret), x)
    ensures BoundExactly(cfg, Processed(cfg, s, f).0, s.mapping, realms, x)
    ensures Processed(cfg, s, f).0.binding.Some? && Processed(cfg, s, f).0.mapping == s.mapping
    ensures !Processed(cfg, s, f).1.err && !Processed(cfg, s, f).0.binding.value.deleted
  {
    hide AtHome, SelectionFor, Processed, Bound, SignCount, Owns, Shows, Removes, Leaves, Sane;
    ProjectStores(cfg, s, f, realms);
    var sel := SelectionFor(cfg, s.mapping).value;
    var bd := BindingFor(cfg, f.collection.secret);
    forall k | 0 <= k < |realms|
      ensures var e := Processed(cfg, s, f).0.apps[k];
        && AtHome(e, realms[k])
        && forall t :: t in realms[k].ts && Shows(t, x) ==>
             SignCount(e, t, x) == if Owns(SiteFor(cfg, s.mapping, realms[k]), t, x) then 1 else 0
    {
      PlacedBound(bd, s.apps[k], realms[k], sel, cfg.lenient, x);
      PlacedCounts(Bound(bd, s.apps[k], sel, cfg.lenient), realms[k], x, SiteFor(cfg, s.mapping, realms[k]));
    }
  }

  lemma BoundIs(b: Binding, d: Json, sel: Selection, lenient: bool)
    ensures Bound(b, d, sel, lenient) == Norm(ProjectDoc(b, d, sel, lenient).doc)
  {
  }

  lemma ProjectsOk(b: Binding, d: Json, r: Realm, sel: Selection, lenient: bool)
    requires AtHome(d, r) && sel in r.sites
    ensures ProjectDoc(b, d, sel, lenient).ok
  {
    hide ProjectDoc;
    ProjectRefines(b, d, r.ts, r.sites.Keys, Site(sel, r.sites[sel]), lenient);
  }

  lemma PlacedCounts(d: Json, r: Realm, x: Sign, site: Site)
    requires Placed(d, r, x, site)
    ensures forall t :: t in r.ts && Shows(t, x) && !Owns(site, t, x) ==> SignCount(d, t, x) == 0
  {
  }

  // ---- A mapping update moves the signs ----

  /** After an accepted update, one reconcile unbinds at the old places and the
      next binds at the new ones: no sign stays at an old place. */
  lemma Rebound(cfg: Config, s: Cluster, m: ResourceMapping, f: Fate, g: Fate, realms: seq<Realm>, x: Sign)
    requires InPlace(cfg, s, realms, x) && s.binding.Some? && s.apps != []
    requires var b := s.binding.value; !b.deleted && FINALIZER in b.finalizers && b.secret != ""
    requires Noticed(cfg, s) && Valid(m) && Charted(cfg, Some(m), realms)
    requires Favourable(f) && Favourable(g) && g.collection.Collected?
    requires Leaves(BindingFor(cfg, g.collection.secret), x)
    ensures var s' := After(cfg, s, [UpdateMapping(m, Stored), Reconcile(f), Reconcile(g)]);
      BoundExactly(cfg, s', Some(m), realms, x)
  {
    hide InPlace, Processed, BoundExactly, Accepts, Valid, UnbindRequested, Leaves, After;
    AfterThree(cfg, s, UpdateMapping(m, Stored), Reconcile(f), Reconcile(g));
    var s1 := MappingUpdated(cfg, s, m, Stored);
    UpdateInPlace(cfg, s, m, realms, x);
    UnbindRun(cfg, s1, f, realms, x);
    var s2 := Reconciled(cfg, s1, f);
    assert s2 == Processed(cfg, s1, f).0;
    UnboundInPlace(cfg, s, s2, realms, x);
    ProjectRun(cfg, s2, g, realms, x);
    assert Reconciled(cfg, s2, g) == Processed(cfg, s2, g).0;
  }

  lemma UpdateInPlace(cfg: Config, s: Cluster, m: ResourceMapping, realms: seq<Realm>, x: Sign)
    requires InPlace(cfg, s, realms, x) && Noticed(cfg, s) && Valid(m) && Charted(cfg, Some(m), realms)
    ensures var s' := MappingUpdated(cfg, s, m, Stored);
      && InPlace(cfg, s', realms, x) && s'.apps == s.apps && s'.mapping == Some(m)
      && s'.binding == Some(s.binding.value.(annotation := s.mapping)) && UnbindRequested(s'.binding.value)
  {
    hide AtHome, Placed, Accepts, Valid, Charted, NoneForeign, Sane, Removes;
    assert Orderly(cfg, s, UpdateMapping(m, Stored), realms, x);
    StepInPlace(cfg, s, UpdateMapping(m, Stored), realms, x);
  }

  lemma UnboundInPlace(cfg: Config, s: Cluster, s': Cluster, realms: seq<Realm>, x: Sign)
    requires InPlace(cfg, s, realms, x) && s.binding.Some? && NoneBound(s', realms, x)
    requires Charted(cfg, s'.mapping, realms)
    requires s'.binding.Some? && s'.binding.value.annotation.None?
    requires s'.binding.value.secret == s.binding.value.secret && s'.binding.value.deleted == s.binding.value.deleted
    ensures InPlace(cfg, s', realms, x) && UnbindRequested(s'.binding.value) == s.binding.value.deleted
  {
    hide AtHome, SelectionFor, NotBound, Placed, Sane, Removes;
    forall k | 0 <= k < |realms| ensures Placed(s'.apps[k], realms[k], x, SiteFor(cfg, s'.mapping, realms[k])) {
      NotBoundPlaced(s'.apps[k], realms[k], x, SiteFor(cfg, s'.mapping, realms[k]));
    }
  }

  // ---- Signs that stay behind ----

  /** The list is foreign to every mapping that reconciling can still use. */
  ghost predicate Orphaned(cfg: Config, s: Cluster, r: Realm, t: Target, x: Sign)
  {
    Foreign(cfg, s.mapping, r, t, x) &&
    (s.binding.Some? && s.binding.value.annotation.Some? ==> Foreign(cfg, s.binding.value.annotation, r, t, x))
  }

  lemma MovedKeeps(cfg: Config, s: Cluster, f: Fate, r: Realm, d: Json, e: Json, t: Target, x: Sign)
    requires s.binding.Some? && Sane(cfg.env, x) && AtHome(d, r) && t in r.ts && Shows(t, x)
    requires Foreign(cfg, Current(s, s.binding.value), r, t, x) && Moved(cfg, s, s.binding.value, f, d, e)
    ensures AtHome(e, r) && SignCount(e, t, x) == SignCount(d, t, x)
  {
    hide AtHome, SelectionFor, Bound, Unbound, Owns, SignCount, Sane, Shows;
    var b := s.binding.value;
    var sel := SelectionFor(cfg, Current(s, b)).value;
    if e != d {
      if UnbindRequested(b) {
        UnboundHome(BindingFor(cfg, b.secret), d, r, sel);
        UnboundPlaced(BindingFor(cfg, b.secret), d, r, sel, t, x);
      } else {
        BoundHome(BindingFor(cfg, f.collection.secret), d, r, sel, cfg.lenient);
        BoundPlaced(BindingFor(cfg, f.collection.secret), d, r, sel, cfg.lenient, t, x);
      }
    }
  }

  /** No step is on the mapping. */
  predicate NoChange(steps: seq<Event>)
  {
    forall i :: 0 <= i < |steps| ==> !OnMapping(steps[i])
  }

  lemma OrphanStep(cfg: Config, s: Cluster, step: Event, k: nat, r: Realm, t: Target, x: Sign)
    requires Sane(cfg.env, x) && k < |s.apps| && AtHome(s.apps[k], r) && t in r.ts && Shows(t, x)
    requires !OnMapping(step) && Orphaned(cfg, s, r, t, x)
    ensures var s' := Next(cfg, s, step);
      && |s'.apps| == |s.apps| && AtHome(s'.apps[k], r) && Orphaned(cfg, s', r, t, x)
      && SignCount(s'.apps[k], t, x) == SignCount(s.apps[k], t, x)
  {
    hide AtHome, Foreign, SignCount, Reconciled, Moved, Plain, Sane, Shows;
    if step.Reconcile? {
      var f := step.f;
      ReconcileMapping(cfg, s, f);
      if s.binding.Some? {
        HomePlain(s.apps[k], r);
        ReconcileApps(cfg, s, f, k);
        MovedKeeps(cfg, s, f, r, s.apps[k], Reconciled(cfg, s, f).apps[k], t, x);
        if Reconciled(cfg, s, f).binding.Some? { AnnotationAfter(cfg, s, f); }
      } else {
        ReconcileNothing(cfg, s, f);
      }
    }
  }

  /** Signs in a list that no usable mapping designates are never removed,
      whatever the fates of the reconciles that follow. */
  lemma {:induction false} OrphanStays(cfg: Config, s: Cluster, steps: seq<Event>, k: nat, r: Realm, t: Target, x: Sign)
    requires Sane(cfg.env, x) && k < |s.apps| && AtHome(s.apps[k], r) && t in r.ts && Shows(t, x)
    requires NoChange(steps) && Orphaned(cfg, s, r, t, x)
    ensures var s' := After(cfg, s, steps);
      |s'.apps| == |s.apps| && SignCount(s'.apps[k], t, x) == SignCount(s.apps[k], t, x)
    decreases |steps|
  {
    hide AtHome, Orphaned, SignCount, Next, Sane, Shows, OnMapping;
    if steps != [] {
      OrphanStep(cfg, s, steps[0], k, r, t, x);
      OrphanStays(cfg, Next(cfg, s, steps[0]), steps[1..], k, r, t, x);
    }
  }

  /** A workload of the cluster has a list that shows the sign. */
  ghost predicate ShownAt(cfg: Config, s: Cluster, k: nat, r: Realm, t: Target, x: Sign)
  {
    && Sane(cfg.env, x) && k < |s.apps| && AtHome(s.apps[k], r) && t in r.ts && Shows(t, x)
    && SignCount(s.apps[k], t, x) > 0
  }

  /** A step on the mapping that leaves a sign in a list foreign both to the
      mapping stored then and to the annotation strands it for good. */
  lemma ChangeStrands(cfg: Config, s: Cluster, step: Event, steps: seq<Event>, k: nat, r: Realm, t: Target, x: Sign)
    requires ShownAt(cfg, s, k, r, t, x) && OnMapping(step) && NoChange(steps)
    requires Orphaned(cfg, Next(cfg, s, step), r, t, x)
    ensures var s' := After(cfg, s, [step] + steps);
      |s'.apps| == |s.apps| && SignCount(s'.apps[k], t, x) > 0
  {
    hide AtHome, Orphaned, SignCount, Accepts, Valid, Sane, Shows;
    assert ([step] + steps)[1..] == steps;
    OrphanStays(cfg, Next(cfg, s, step), steps, k, r, t, x);
  }

  /** A second update while an annotation is pending strands what was bound
      under the first: the annotation is overwritten with the mapping stored
      meanwhile, and nothing remembers the older places. */
  lemma SecondUpdateStrands(
    cfg: Config, s: Cluster, m: ResourceMapping, steps: seq<Event>, k: nat, r: Realm, t: Target, x: Sign)
    requires ShownAt(cfg, s, k, r, t, x) && NoChange(steps)
    requires s.binding.Some? && s.binding.value.annotation.Some?
    requires s.mapping.Some? && Accepts(s.mapping.value, cfg.gvr) && Valid(m)
    requires Foreign(cfg, s.mapping, r, t, x) && Foreign(cfg, Some(m), r, t, x)
    ensures var s' := After(cfg, s, [UpdateMapping(m, Stored)] + steps);
      |s'.apps| == |s.apps| && SignCount(s'.apps[k], t, x) > 0
  {
    hide ShownAt, Foreign, SignCount, After, Accepts, Valid;
    ChangeStrands(cfg, s, UpdateMapping(m, Stored), steps, k, r, t, x);
  }

  /** An update is not noticed by a binding on a workload that the old mapping
      does not accept, for instance because it was bound with the default
      template: its signs stay at the default places. */
  lemma UnnoticedUpdateStrands(
    cfg: Config, s: Cluster, m: ResourceMapping, steps: seq<Event>, k: nat, r: Realm, t: Target, x: Sign)
    requires ShownAt(cfg, s, k, r, t, x) && NoChange(steps)
    requires s.binding.Some? && s.binding.value.annotation.None?
    requires s.mapping.Some? && !Accepts(s.mapping.value, cfg.gvr) && Valid(m) && Foreign(cfg, Some(m), r, t, x)
    ensures var s' := After(cfg, s, [UpdateMapping(m, Stored)] + steps);
      |s'.apps| == |s.apps| && SignCount(s'.apps[k], t, x) > 0
  {
    hide ShownAt, Foreign, SignCount, After, Accepts, Valid;
    ChangeStrands(cfg, s, UpdateMapping(m, Stored), steps, k, r, t, x);
  }

  /** The first mapping for a resource is created without annotating bindings
      that were made under the default template. */
  lemma CreationStrands(
    cfg: Config, s: Cluster, m: ResourceMapping, steps: seq<Event>, k: nat, r: Realm, t: Target, x: Sign)
    requires ShownAt(cfg, s, k, r, t, x) && NoChange(steps)
    requires s.binding.Some? && s.binding.value.annotation.None?
    requires s.mapping.None? && Valid(m) && Foreign(cfg, Some(m), r, t, x)
    ensures var s' := After(cfg, s, [CreateMapping(m)] + steps);
      |s'.apps| == |s.apps| && SignCount(s'.apps[k], t, x) > 0
  {
    hide ShownAt, Foreign, SignCount, After, Valid;
    ChangeStrands(cfg, s, CreateMapping(m), steps, k, r, t, x);
  }

  /** A mapping is deleted without annotating the bindings made under it. */
  lemma DeletionStrands(cfg: Config, s: Cluster, steps: seq<Event>, k: nat, r: Realm, t: Target, x: Sign)
    requires ShownAt(cfg, s, k, r, t, x) && NoChange(steps)
    requires s.binding.Some? && s.binding.value.annotation.None? && Foreign(cfg, None, r, t, x)
    ensures var s' := After(cfg, s, [DeleteMapping] + steps);
      |s'.apps| == |s.apps| && SignCount(s'.apps[k], t, x) > 0
  {
    hide ShownAt, Foreign, SignCount, After;
    ChangeStrands(cfg, s, DeleteMapping, steps, k, r, t, x);
  }

  /** A refused application write loses a rebind request: the annotation is
      already cleared in memory, and persisting the binding after the failure
      stores that, while a workload that the writes do not reach keeps its old
      signs for good. By ReconcileKeepsIff these are all the signs lost so. */
  lemma RefusedWriteStrands(
    cfg: Config, s: Cluster, f: Fate, steps: seq<Event>, realms: seq<Realm>, k: nat, t: Target, x: Sign)
    requires InPlace(cfg, s, realms, x) && k < |s.apps| && t in realms[k].ts && Shows(t, x) && NoChange(steps)
    requires s.binding.Some? && s.binding.value.annotation.Some? && Clears(cfg, s, f) && !Unimpeded(cfg, s, f, k)
    requires Foreign(cfg, s.mapping, realms[k], t, x)
    ensures var s' := Reconciled(cfg, s, f);
      && s'.binding.Some? && s'.binding.value.annotation.None?
      && |After(cfg, s', steps).apps| == |s.apps|
      && SignCount(After(cfg, s', steps).apps[k], t, x) == SignCount(s.apps[k], t, x)
  {
    hide AtHome, SelectionFor, AllRemoved, Unbound, Placed, SignCount, Foreign, After, Plain, Sane, Removes, Shows,
      OnMapping, Reconciled, Clears, Unimpeded;
    AllDoneAtHome(cfg, s, f, realms);
    HomePlain(s.apps[k], realms[k]);
    AnnotationCleared(cfg, s, f, k);
    ReconcileMapping(cfg, s, f);
    OrphanStays(cfg, Reconciled(cfg, s, f), steps, k, realms[k], t, x);
  }

  /** Unbinding a workload that shows the sign changes the document, so that a
      refusal to write it is a refusal of a needed write. */
  lemma StillThere(cfg: Config, s: Cluster, f: Fate, realms: seq<Realm>, k: nat, t: Target, x: Sign)
    requires InPlace(cfg, s, realms, x) && k < |s.apps| && t in realms[k].ts && Shows(t, x)
    requires s.binding.Some? && s.binding.value.secret != "" && SelectionFor(cfg, Current(s, s.binding.value)).Some?
    requires SignCount(s.apps[k], t, x) > 0 && k in f.refused
    ensures !Unimpeded(cfg, s, f, k)
  {
    hide UnbindDoc, SignCount, Owns, Sane, Removes, Shows, SelectionFor, AtHome, Placed;
    var b := BindingFor(cfg, s.binding.value.secret);
    var sel := SelectionFor(cfg, Current(s, s.binding.value)).value;
    PlacedUnbound(b, s.apps[k], realms[k], sel, x);
    HomePlain(s.apps[k], realms[k]);
    UnboundIs(b, s.apps[k], sel);
  }

  // ---- A rebind request before the first secret ----

  /** A binding that is annotated before it has recorded a secret never
      projects: every reconcile ends quietly and keeps the annotation. */
  lemma {:induction false} NeverRebinds(cfg: Config, s: Cluster, fates: seq<Fate>)
    requires s.binding.Some? && forall k :: 0 <= k < |s.apps| ==> Plain(s.apps[k])
    requires var b := s.binding.value; b.annotation.Some? && b.secret == "" && !b.deleted
    ensures var s' := After(cfg, s, seq(|fates|, i requires 0 <= i < |fates| => Reconcile(fates[i])));
      && s'.binding.Some? && s'.apps == s.apps && s'.mapping == s.mapping
      && s'.binding.value.annotation == s.binding.value.annotation && s'.binding.value.secret == ""
    decreases |fates|
  {
    hide Reconciled, Plain;
    if fates != [] {
      QuietStep(cfg, s, fates[0]);
      var s1 := Reconciled(cfg, s, fates[0]);
      NeverRebinds(cfg, s1, fates[1..]);
      var steps := seq(|fates|, i requires 0 <= i < |fates| => Reconcile(fates[i]));
      var rest := seq(|fates| - 1, i requires 0 <= i < |fates| - 1 => Reconcile(fates[1..][i]));
      assert steps[1..] == rest;
    }
  }

  lemma {:induction false} WriteSame(stored: seq<Json>, touched: bool, refused: set<nat>, i: nat)
    ensures WriteApps(stored, stored, touched, refused, i).0 == stored
    decreases |stored|
  {
    if stored != [] { WriteSame(stored[1..], touched, refused, i + 1); }
  }

  lemma QuietStep(cfg: Config, s: Cluster, f: Fate)
    requires s.binding.Some?
    requires var b := s.binding.value; b.annotation.Some? && b.secret == "" && !b.deleted
    ensures var s' := Reconciled(cfg, s, f);
      && s'.binding.Some? && s'.apps == s.apps && s'.mapping == s.mapping
      && s'.binding.value.annotation == s.binding.value.annotation
      && s'.binding.value.secret == ""
      && !s'.binding.value.deleted
  {
    hide SelectionFor, UnbindAll, WriteApps;
    WriteSame(s.apps, false, f.refused, 0);
  }
}
