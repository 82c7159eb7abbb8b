/**
 The finalizer protocol: the signs of a binding in a workload are guarded by the
 finalizer, and a deleted binding loses it after at most two reconciles.
 */
module Finalizing {

  import opened Documents
  import opened Entries
  import opened Pods
  import opened Views
  import opened Projection
  import opened Templates
  import opened Stored
  import opened Signs
  import opened Pipelines
  import opened Protocol
  import opened Rebinding
  import opened Lifecycle
  import opened Closings

  predicate Finalized(s: Cluster)
  {
    s.binding.Some? && FINALIZER in s.binding.value.finalizers
  }

  /** The unbind handler ends without touching any workload. */
  predicate Quiet(cfg: Config, s: Cluster, f: Fate)
    requires s.binding.Some?
  {
    !f.lookup || SelectionFor(cfg, Current(s, s.binding.value)).None? || s.apps == [] || s.binding.value.secret == ""
  }

  /** A deleted binding is let go with its workloads as they are: the handler
      ends quietly, the finalizer is there once, and every call that is still
      made succeeds. Applications that were found are all written. */
  predicate Releases(cfg: Config, s: Cluster, f: Fate)
    requires s.binding.Some?
  {
    var b := s.binding.value;
    && f.get && b.deleted && multiset(b.finalizers)[FINALIZER] == 1 && Quiet(cfg, s, f)
    && (f.lookup && SelectionFor(cfg, Current(s, b)).Some? ==> forall k: nat :: k < |s.apps| ==> k !in f.refused)
    && f.statusWrite && f.metaWrite && f.finalWrite
  }

  lemma {:induction false} WithoutOne(fs: seq<string>)
    requires FINALIZER in fs
    ensures FINALIZER !in WithoutFinalizer(fs) <==> multiset(fs)[FINALIZER] == 1
  {
    assert fs == [fs[0]] + fs[1..];
    if fs[0] == FINALIZER {
      assert FINALIZER in fs[1..] <==> multiset(fs[1..])[FINALIZER] > 0;
    } else {
      WithoutOne(fs[1..]);
    }
  }

  // ---- Safety ----

  /** What a reconcile does to a workload of a binding that is being deleted, or
      annotated, is removal. Anything else happens under a finalizer that was
      stored before, in this reconcile or an earlier one, and is there after. */
  lemma ProjectsOnlyFinalized(cfg: Config, s: Cluster, f: Fate, k: nat)
    requires s.binding.Some? && k < |s.apps| && Plain(s.apps[k])
    ensures |Reconciled(cfg, s, f).apps| == |s.apps|
    ensures var b, e := s.binding.value, Reconciled(cfg, s, f).apps[k];
      e != s.apps[k] ==>
        if b.deleted || b.annotation.Some? then
          var sel := SelectionFor(cfg, Current(s, b));
          sel.Some? && b.secret != "" && e == Unbound(BindingFor(cfg, b.secret), s.apps[k], sel.value)
        else (Finalized(s) || f.finalizerWrite) && Finalized(Reconciled(cfg, s, f))
  {
    hide Handlers, Close, Unbound, Bound, SelectionFor;
    var b := s.binding.value;
    var add := !b.deleted && FINALIZER !in b.finalizers;
    ReconcileMapping(cfg, s, f);
    ReconcileApps(cfg, s, f, k);
    if !b.deleted && f.get && (add ==> f.finalizerWrite) {
      var m := if add then b.(finalizers := WithFinalizer(b.finalizers)) else b;
      var s1 := s.(binding := Some(m));
      HandlersLength(cfg, s1, m, f);
      HandlersMemory(cfg, s1, m, f);
      CloseBinding(s1, Handlers(cfg, s1, m, f), f);
    }
  }

  /** When the finalizer leaves, the binding is being deleted and the run had
      neither error nor retry. If the unbind handler had ended quietly, every
      workload is as before; otherwise signs that were in place are gone. */
  lemma FinalizerLeaves(cfg: Config, s: Cluster, f: Fate, realms: seq<Realm>, x: Sign)
    requires Finalized(s) && !Finalized(Reconciled(cfg, s, f))
    ensures s.binding.value.deleted && !Processed(cfg, s, f).1.retry && !Processed(cfg, s, f).1.err
    ensures Quiet(cfg, s, f) ==> Reconciled(cfg, s, f).apps == s.apps
    ensures !Quiet(cfg, s, f) && InPlace(cfg, s, realms, x) ==> NoneBound(Reconciled(cfg, s, f), realms, x)
  {
    hide InPlace, UnbindHandler, ProjectHandlers, Close, NoneBound, SelectionFor;
    var b := s.binding.value;
    HandlersLength(cfg, s, b, f);
    HandlersMemory(cfg, s, b, f);
    var p := Handlers(cfg, s, b, f);
    CloseBinding(s, p, f);
    assert b.deleted && Close(s, p, f).1 && !p.err && !p.retry;
    if Quiet(cfg, s, f) {
      QuietApps(cfg, s, b, f);
    } else if InPlace(cfg, s, realms, x) {
      UnboundAtLast(cfg, s, f, realms, x);
      NoneBoundKept(Close(s, p, f).0, Reconciled(cfg, s, f), realms, x);
    }
  }

  lemma QuietApps(cfg: Config, s: Cluster, m: BindingObject, f: Fate)
    requires s.binding == Some(m) && UnbindRequested(m) && Quiet(cfg, s, f)
    ensures |UnbindHandler(cfg, s, m, f.lookup).docs| == |s.apps|
    ensures Close(s, UnbindHandler(cfg, s, m, f.lookup), f).0.apps == s.apps
  {
    hide SelectionFor, UnbindAll, WriteApps;
    WriteSame(s.apps, false, f.refused, 0);
  }

  lemma NoneBoundKept(s: Cluster, s': Cluster, realms: seq<Realm>, x: Sign)
    ensures NoneBound(s, realms, x) && s'.apps == s.apps ==> NoneBound(s', realms, x)
  {
  }

  lemma UnboundAtLast(cfg: Config, s: Cluster, f: Fate, realms: seq<Realm>, x: Sign)
    requires InPlace(cfg, s, realms, x) && s.binding.Some? && UnbindRequested(s.binding.value) && !Quiet(cfg, s, f)
    requires |UnbindHandler(cfg, s, s.binding.value, f.lookup).docs| == |s.apps|
    requires var p := UnbindHandler(cfg, s, s.binding.value, f.lookup); !p.err && Close(s, p, f).1
    ensures NoneBound(Close(s, UnbindHandler(cfg, s, s.binding.value, f.lookup), f).0, realms, x)
  {
    hide AtHome, Norm, SelectionFor, UnbindDoc, Placed, NotBound, WriteApps, Unbound, Plain, Sane, Removes;
    var b := s.binding.value;
    var p := UnbindHandler(cfg, s, b, f.lookup);
    var sel := SelectionFor(cfg, Current(s, b)).value;
    var bd := BindingFor(cfg, b.secret);
    WriteLength(s.apps, p.docs, p.touched, f.refused, 0);
    forall k | 0 <= k < |realms|
      ensures AtHome(Close(s, p, f).0.apps[k], realms[k]) && NotBound(Close(s, p, f).0.apps[k], realms[k], x)
    {
      HomePlain(s.apps[k], realms[k]);
      PlacedUnbound(bd, s.apps[k], realms[k], sel, x);
      WriteEach(s.apps, p.docs, p.touched, f.refused, 0, k);
      UnbindAllAt(bd, s.apps, sel, k);
      UnboundIs(bd, s.apps[k], sel);
    }
  }

  // ---- The guard over runs ----

  /** Whatever sign of the binding a workload shows is guarded by the finalizer. */
  ghost predicate Guarded(cfg: Config, s: Cluster, realms: seq<Realm>, x: Sign)
  {
    InPlace(cfg, s, realms, x) && (Finalized(s) || NoneBound(s, realms, x))
  }

  /** The finalizer of a binding whose unbinding ends quietly leaves exactly
      if the binding is released. */
  lemma QuietLeaves(cfg: Config, s: Cluster, f: Fate)
    requires Finalized(s) && s.binding.value.deleted && Quiet(cfg, s, f)
    ensures !Finalized(Reconciled(cfg, s, f)) <==> Releases(cfg, s, f)
    ensures Reconciled(cfg, s, f).apps == s.apps
  {
    hide SelectionFor, WriteApps, UnbindAll, ProjectHandlers;
    var b := s.binding.value;
    HandlersLength(cfg, s, b, f);
    WriteSame(s.apps, false, f.refused, 0);
    WritesUnless(s.apps, s.apps, false, f.refused, 0);
    NoneRefused(s.apps, f.refused);
    WithoutOne(b.finalizers);
  }

  lemma NoneRefused(apps: seq<Json>, refused: set<nat>)
    ensures (forall k: nat :: !RefusedAt(apps, apps, false, refused, 0, k)) <==>
      forall k: nat :: k < |apps| ==> k !in refused
  {
    forall k: nat ensures RefusedAt(apps, apps, false, refused, 0, k) <==> k < |apps| && k in refused {
      assert 0 + k == k;
    }
  }

  /** A reconcile keeps the guard if and only if it does not release a binding
      whose signs a workload still shows. */
  lemma GuardKeepsIff(cfg: Config, s: Cluster, f: Fate, realms: seq<Realm>, x: Sign)
    requires Guarded(cfg, s, realms, x) && s.binding.Some? && |s.apps| == |realms|
    requires Orderly(cfg, s, Reconcile(f), realms, x)
    ensures Guarded(cfg, Reconciled(cfg, s, f), realms, x) <==> NoneBound(s, realms, x) || !Releases(cfg, s, f)
  {
    hide InPlace, NoneBound, Orderly, Reconciled, SelectionFor, Quiet;
    StepInPlace(cfg, s, Reconcile(f), realms, x);
    var s' := Reconciled(cfg, s, f);
    if !Finalized(s) {
      UnfinalizedReconcile(cfg, s, f, realms, x);
    } else {
      if !Finalized(s') { FinalizerLeaves(cfg, s, f, realms, x); }
      if s.binding.value.deleted && Quiet(cfg, s, f) { QuietLeaves(cfg, s, f); }
      NoneBoundKept(s, s', realms, x);
      NoneBoundKept(s', s, realms, x);
    }
  }

  /** No binding is released while a workload shows its sign. */
  ghost predicate Attentive(cfg: Config, s: Cluster, step: Event, realms: seq<Realm>, x: Sign)
  {
    step.Reconcile? && s.binding.Some? ==> NoneBound(s, realms, x) || !Releases(cfg, s, step.f)
  }

  lemma GuardedStep(cfg: Config, s: Cluster, step: Event, realms: seq<Realm>, x: Sign)
    requires |s.apps| == |realms| && Guarded(cfg, s, realms, x) && Attentive(cfg, s, step, realms, x)
    requires step.CreateBinding? || Orderly(cfg, s, step, realms, x)
    ensures Guarded(cfg, Next(cfg, s, step), realms, x)
  {
    hide InPlace, NoneBound, Orderly, Reconciled, Valid, Accepts, Releases;
    if step.CreateBinding? { CreatedOrderly(cfg, s, realms, x); }
    StepInPlace(cfg, s, step, realms, x);
    if step.Reconcile? {
      if s.binding.Some? {
        GuardKeepsIff(cfg, s, step.f, realms, x);
      } else {
        ReconcileNothing(cfg, s, step.f);
      }
    } else {
      NoneBoundKept(s, Next(cfg, s, step), realms, x);
    }
  }

  /** Where a guarded binding is gone, a new one finds nothing of it. */
  lemma CreatedOrderly(cfg: Config, s: Cluster, realms: seq<Realm>, x: Sign)
    requires Guarded(cfg, s, realms, x)
    ensures |s.apps| == |realms| && Orderly(cfg, s, CreateBinding, realms, x)
  {
    hide AtHome, NotBound, AllPlaced, Charted, Sane, Removes;
  }

  /** Without a stored finalizer a reconcile first stores it, or only removes. */
  lemma UnfinalizedReconcile(cfg: Config, s: Cluster, f: Fate, realms: seq<Realm>, x: Sign)
    requires InPlace(cfg, s, realms, x) && NoneBound(s, realms, x) && !Finalized(s)
    ensures Finalized(Reconciled(cfg, s, f)) || NoneBound(Reconciled(cfg, s, f), realms, x)
  {
    hide AtHome, NotBound, Plain, Reconciled, Moved, Placed, SelectionFor, Sane, Removes;
    ReconcileMapping(cfg, s, f);
    var s' := Reconciled(cfg, s, f);
    if s.binding.None? {
      ReconcileNothing(cfg, s, f);
    } else if !Finalized(s') {
      forall k | 0 <= k < |realms| ensures AtHome(s'.apps[k], realms[k]) && NotBound(s'.apps[k], realms[k], x) {
        HomePlain(s.apps[k], realms[k]);
        ReconcileApps(cfg, s, f, k);
        ProjectsOnlyFinalized(cfg, s, f, k);
        StaysUnbound(cfg, s, f, realms[k], s.apps[k], s'.apps[k], x);
      }
    }
  }

  lemma StaysUnbound(cfg: Config, s: Cluster, f: Fate, r: Realm, d: Json, e: Json, x: Sign)
    requires s.binding.Some? && AtHome(d, r) && NotBound(d, r, x) && Moved(cfg, s, s.binding.value, f, d, e)
    requires var m := Current(s, s.binding.value); SelectionFor(cfg, m).Some? && SelectionFor(cfg, m).value in r.sites
    requires e == d || UnbindRequested(s.binding.value)
    requires Sane(cfg.env, x) && (s.binding.value.secret != "" ==> Removes(BindingFor(cfg, s.binding.value.secret), x))
    ensures AtHome(e, r) && NotBound(e, r, x)
  {
    hide AtHome, NotBound, Placed, Unbound, UnbindDoc, SelectionFor, Bound, Sane, Removes;
    if e != d {
      var b := s.binding.value;
      var sel := SelectionFor(cfg, Current(s, b)).value;
      NotBoundPlaced(d, r, x, Site(sel, r.sites[sel]));
      PlacedUnbound(BindingFor(cfg, b.secret), d, r, sel, x);
    }
  }

  ghost predicate AttentiveRun(cfg: Config, s: Cluster, steps: seq<Event>, realms: seq<Realm>, x: Sign)
    decreases |steps|
  {
    steps == [] ||
    (|s.apps| == |realms| && (steps[0].CreateBinding? || Orderly(cfg, s, steps[0], realms, x)) &&
     Attentive(cfg, s, steps[0], realms, x) && AttentiveRun(cfg, Next(cfg, s, steps[0]), steps[1..], realms, x))
  }

  /** In every attentive run a workload that shows a sign of the binding is
      guarded by the finalizer: the binding cannot disappear before its signs,
      and a binding created anew finds none. */
  lemma {:induction false} RunGuarded(cfg: Config, s: Cluster, steps: seq<Event>, realms: seq<Realm>, x: Sign)
    requires Guarded(cfg, s, realms, x) && AttentiveRun(cfg, s, steps, realms, x)
    ensures Guarded(cfg, After(cfg, s, steps), realms, x)
    decreases |steps|
  {
    hide Guarded, Orderly, Attentive, Next;
    if steps != [] {
      GuardedStep(cfg, s, steps[0], realms, x);
      RunGuarded(cfg, Next(cfg, s, steps[0]), steps[1..], realms, x);
    }
  }

  // ---- Progress ----

  /** With favourable calls a deleted binding loses its finalizer in one
      reconcile, or in two if a mapping annotation was pending. If no secret is
      on record or there are no applications, one is enough and the workloads
      are as before; otherwise they show no sign of the binding from the first
      reconcile on. */
  lemma DeletedGone(cfg: Config, s: Cluster, f: Fate, g: Fate, realms: seq<Realm>, x: Sign)
    requires InPlace(cfg, s, realms, x) && s.binding.Some? && Favourable(f) && Favourable(g)
    requires var b := s.binding.value; b.deleted && multiset(b.finalizers)[FINALIZER] == 1
    ensures var s1 := Reconciled(cfg, s, f);
      var s2 := Reconciled(cfg, s1, g);
      && (!Finalized(s1) <==> s.binding.value.annotation.None? || Quiet(cfg, s, f))
      && !Finalized(s2)
      && if Quiet(cfg, s, f) then s1.apps == s.apps else NoneBound(s1, realms, x) && NoneBound(s2, realms, x)
  {
    hide InPlace, NoneBound, Reconciled, SelectionFor, Quiet;
    var s1 := Reconciled(cfg, s, f);
    if Quiet(cfg, s, f) {
      QuietLeaves(cfg, s, f);
      StaysGone(cfg, s, f);
      StaysGone(cfg, s1, g);
    } else {
      LoudGone(cfg, s, f, realms, x);
      if s.binding.value.annotation.Some? {
        QuietAlike(cfg, s1, f, g);
        LoudGone(cfg, s1, g, realms, x);
      } else {
        StaysGone(cfg, s, f);
        StaysGone(cfg, s1, g);
        UnfinalizedReconcile(cfg, s1, g, realms, x);
      }
    }
  }

  lemma QuietAlike(cfg: Config, s: Cluster, f: Fate, g: Fate)
    requires s.binding.Some? && f.lookup == g.lookup
    ensures Quiet(cfg, s, f) == Quiet(cfg, s, g)
  {
  }

  /** A binding under deletion is never given a finalizer. */
  lemma StaysGone(cfg: Config, s: Cluster, f: Fate)
    ensures var s' := Reconciled(cfg, s, f);
      && (s.binding.Some? && s.binding.value.deleted && s'.binding.Some? ==> s'.binding.value.deleted)
      && ((s.binding.Some? ==> s.binding.value.deleted) && !Finalized(s) ==> !Finalized(s'))
      && (s.binding.None? ==> s'.binding.None?)
  {
    hide Handlers, Close;
    if s.binding.Some? && s.binding.value.deleted {
      var b := s.binding.value;
      HandlersLength(cfg, s, b, f);
      HandlersMemory(cfg, s, b, f);
      CloseBinding(s, Handlers(cfg, s, b, f), f);
    }
  }

  /** One reconcile of a deleted binding that does not end quietly. */
  lemma LoudGone(cfg: Config, s: Cluster, f: Fate, realms: seq<Realm>, x: Sign)
    requires InPlace(cfg, s, realms, x) && s.binding.Some? && Favourable(f) && !Quiet(cfg, s, f)
    requires var b := s.binding.value; b.deleted && multiset(b.finalizers)[FINALIZER] == 1
    ensures var b, s' := s.binding.value, Reconciled(cfg, s, f);
      && InPlace(cfg, s', realms, x) && NoneBound(s', realms, x)
      && if b.annotation.None? then !Finalized(s')
         else s'.binding == Some(b.(annotation := None, ready := true)) && !Quiet(cfg, s', f)
  {
    hide InPlace, NoneBound, Processed, UnbindRequested;
    var b := s.binding.value;
    Requested(b);
    UnbindRun(cfg, s, f, realms, x);
    var s' := Reconciled(cfg, s, f);
    WithoutOne(b.finalizers);
    NoneBoundKept(Processed(cfg, s, f).0, s', realms, x);
    StoredCharted(cfg, s, s', realms, x);
    FavourableOrderly(cfg, s, f, realms, x);
    StepInPlace(cfg, s, Reconcile(f), realms, x);
  }

  lemma FavourableOrderly(cfg: Config, s: Cluster, f: Fate, realms: seq<Realm>, x: Sign)
    requires InPlace(cfg, s, realms, x) && s.binding.Some? && UnbindRequested(s.binding.value) && f.refused == {}
    ensures |s.apps| == |realms| && Orderly(cfg, s, Reconcile(f), realms, x)
  {
    hide AtHome, SelectionFor, AllPlaced, Charted, Sane, Removes, Clears, Foreign, Shows, UnbindDoc;
  }

  lemma Requested(b: BindingObject)
    ensures b.deleted ==> UnbindRequested(b)
  {
  }

  lemma StoredCharted(cfg: Config, s: Cluster, s1: Cluster, realms: seq<Realm>, x: Sign)
    requires InPlace(cfg, s, realms, x) && NoneBound(s1, realms, x)
    ensures Charted(cfg, s.mapping, realms) && (s.apps != [] ==> s1.apps != [])
  {
    hide AtHome, NotBound, AllPlaced, Charted;
  }

  // ---- How a deleted binding leaves signs behind ----

  /** A projection whose status write fails binds the workloads but records no secret. */
  lemma UnrecordedProjection(cfg: Config, s: Cluster, f: Fate, realms: seq<Realm>, x: Sign)
    requires InPlace(cfg, s, realms, x) && s.binding == Some(NEW_BINDING)
    requires Favourable(f.(statusWrite := true)) && !f.statusWrite
    requires f.collection.Collected? && Leaves(BindingFor(cfg, f.collection.secret), x)
    ensures var s' := Reconciled(cfg, s, f);
      s'.binding == Some(NEW_BINDING.(finalizers := [FINALIZER])) && BoundExactly(cfg, s', s.mapping, realms, x)
  {
    hide InPlace, BoundExactly, SelectionFor, WriteApps, ProjectAll, UnbindAll, Leaves;
    var b := s.binding.value.(finalizers := [FINALIZER]);
    var s0 := s.(binding := Some(b));
    var good := f.(statusWrite := true);
    FinalizerInPlace(cfg, s, s0, realms, x);
    ProjectRun(cfg, s0, good, realms, x);
    HandlersLength(cfg, s0, b, f);
    assert WithFinalizer([]) == [FINALIZER];
    var s1 := Reconciled(cfg, s, f);
    assert s1.apps == Processed(cfg, s0, good).0.apps && s1.binding == Some(b);
    BoundExactlyApps(cfg, Processed(cfg, s0, good).0, s1, s.mapping, realms, x);
  }

  /** A deleted binding without a recorded secret is let go as it is. */
  lemma UnrecordedRelease(cfg: Config, s: Cluster, g: Fate)
    requires s.binding == Some(NEW_BINDING.(deleted := true, finalizers := [FINALIZER])) && Favourable(g)
    ensures Reconciled(cfg, s, g) == s.(binding := None)
  {
    hide SelectionFor, WriteApps, ProjectAll, UnbindAll;
    HandlersLength(cfg, s, s.binding.value, g);
    WriteSame(s.apps, false, g.refused, 0);
    WriteLength(s.apps, s.apps, false, g.refused, 0);
    assert WithoutFinalizer([FINALIZER]) == [];
  }

  /** The status write of the first projection fails, so that no secret is
      recorded; the binding is then deleted. One more reconcile, in which
      every call succeeds, drops the finalizer and leaves the workloads bound. */
  lemma LostSecret(cfg: Config, s: Cluster, f: Fate, g: Fate, realms: seq<Realm>, x: Sign)
    requires InPlace(cfg, s, realms, x) && s.binding == Some(NEW_BINDING)
    requires Favourable(f.(statusWrite := true)) && !f.statusWrite && Favourable(g)
    requires f.collection.Collected? && Leaves(BindingFor(cfg, f.collection.secret), x)
    ensures var s' := After(cfg, s, [Reconcile(f), DeleteBinding, Reconcile(g)]);
      s'.binding.None? && BoundExactly(cfg, s', s.mapping, realms, x)
  {
    hide InPlace, BoundExactly, Reconciled, Leaves, After;
    UnrecordedProjection(cfg, s, f, realms, x);
    var s1 := Reconciled(cfg, s, f);
    var s2 := BindingDeleted(s1);
    UnrecordedRelease(cfg, s2, g);
    var s3 := Reconciled(cfg, s2, g);
    AfterThree(cfg, s, Reconcile(f), DeleteBinding, Reconcile(g));
    BoundExactlyApps(cfg, s1, s3, s.mapping, realms, x);
  }

  lemma FinalizerInPlace(cfg: Config, s: Cluster, s0: Cluster, realms: seq<Realm>, x: Sign)
    requires InPlace(cfg, s, realms, x) && s.binding.Some? && s.binding.value.annotation.None?
    requires s0 == s.(binding := Some(s.binding.value.(finalizers := [FINALIZER])))
    ensures InPlace(cfg, s0, realms, x)
  {
    hide AtHome, Placed, SelectionFor;
  }

  lemma BoundExactlyApps(cfg: Config, s: Cluster, s': Cluster, m: Option<ResourceMapping>, realms: seq<Realm>, x: Sign)
    requires BoundExactly(cfg, s, m, realms, x) && s'.apps == s.apps
    ensures BoundExactly(cfg, s', m, realms, x)
  {
    hide AtHome, SignCount, Owns, SelectionFor;
  }
}
