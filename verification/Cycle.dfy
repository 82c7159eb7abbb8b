/**
 A binding from its creation to its end: the first reconcile projects and records
 a secret, deletion unbinds with the secret on record.
 */
module Cycles {

  import opened Documents
  import opened Entries
  import opened Pods
  import opened Views
  import opened Projection
  import opened Templates
  import opened Stored
  import opened Theorems
  import opened Pipelines
  import opened Protocol
  import opened Rebinding
  import opened Lifecycle

  /** The realm of one selection. */
  ghost function OwnRealm(doc: Json, sel: Selection): Realm
  {
    Realm(SiteTargets(SiteOf(doc, sel)), map[sel := SiteOf(doc, sel).cs])
  }

  lemma OwnHome(doc: Json, sel: Selection)
    requires Workable(doc, sel)
    ensures AtHome(doc, OwnRealm(doc, sel))
  {
    hide Plain, Tidy, Fits, BindablePods;
    WorkableReady(doc, sel);
    assert OwnRealm(doc, sel).sites.Keys == {sel};
    assert Site(sel, OwnRealm(doc, sel).sites[sel]) == SiteOf(doc, sel);
  }

  /** Every workload is free of the binding under the mapping in force. */
  ghost predicate AllUndisturbed(b: Binding, apps: seq<Json>, sel: Selection)
  {
    forall k :: 0 <= k < |apps| ==> Undisturbed(b, apps[k], sel)
  }

  ghost function OwnRealms(apps: seq<Json>, sel: Selection): seq<Realm>
  {
    seq(|apps|, k requires 0 <= k < |apps| => OwnRealm(apps[k], sel))
  }

  lemma OwnHoused(cfg: Config, s: Cluster, b: Binding)
    requires SelectionFor(cfg, s.mapping).Some? && AllUndisturbed(b, s.apps, SelectionFor(cfg, s.mapping).value)
    ensures Housed(s, OwnRealms(s.apps, SelectionFor(cfg, s.mapping).value))
    ensures Charted(cfg, s.mapping, OwnRealms(s.apps, SelectionFor(cfg, s.mapping).value))
  {
    hide AtHome, SelectionFor, UnusedIn, KeysUnique, Workable;
    var sel := SelectionFor(cfg, s.mapping).value;
    forall k | 0 <= k < |s.apps| ensures AtHome(s.apps[k], OwnRealm(s.apps[k], sel)) {
      assert Undisturbed(b, s.apps[k], sel);
      OwnHome(s.apps[k], sel);
    }
  }

  lemma BoundStillHoused(
    cfg: Config, s: Cluster, t: Cluster, b: Binding, sel: Selection, lenient: bool, realms: seq<Realm>)
    requires Housed(s, realms) && |t.apps| == |s.apps| && forall k :: 0 <= k < |realms| ==> sel in realms[k].sites
    requires forall k :: 0 <= k < |s.apps| ==> t.apps[k] == Bound(b, s.apps[k], sel, lenient)
    ensures Housed(t, realms)
  {
    hide AtHome, Bound;
    forall k | 0 <= k < |realms| ensures AtHome(t.apps[k], realms[k]) {
      BoundHome(b, s.apps[k], realms[k], sel, lenient);
    }
  }

  /** A binding that has not begun, or has its finalizer already. */
  predicate Idle(b: BindingObject)
  {
    b.annotation.None? && !b.deleted && (b.finalizers == [] || b.finalizers == [FINALIZER])
  }

  /** The first reconcile binds every workload and records the secret. */
  lemma FirstReconcile(cfg: Config, s: Cluster, f: Fate, realms: seq<Realm>)
    requires Housed(s, realms) && Charted(cfg, s.mapping, realms) && s.binding.Some? && Idle(s.binding.value)
    requires Favourable(f) && f.collection.Collected? && f.collection.persisted && f.collection.secret != ""
    ensures var s' := Reconciled(cfg, s, f);
      && s'.mapping == s.mapping && |s'.apps| == |s.apps|
      && s'.binding == Some(BindingObject(None, false, [FINALIZER], f.collection.secret, true))
      && forall k :: 0 <= k < |s.apps| ==>
           s'.apps[k] == Bound(BindingFor(cfg, f.collection.secret), s.apps[k],
             SelectionFor(cfg, s.mapping).value, cfg.lenient)
  {
    hide AtHome, SelectionFor, Processed, Bound;
    var b := s.binding.value.(finalizers := [FINALIZER]);
    var s0 := s.(binding := Some(b));
    assert WithFinalizer([]) == [FINALIZER];
    ProjectStores(cfg, s0, f, realms);
    assert Reconciled(cfg, s, f) == Processed(cfg, s0, f).0;
  }

  /** The reconcile after deletion unbinds every workload with the secret on record. */
  lemma LastReconcile(cfg: Config, s: Cluster, g: Fate, secret: string, realms: seq<Realm>)
    requires Housed(s, realms) && Charted(cfg, s.mapping, realms) && s.apps != [] && secret != "" && Favourable(g)
    requires s.binding == Some(BindingObject(None, true, [FINALIZER], secret, true))
    ensures var s' := Reconciled(cfg, s, g);
      && s'.binding.None? && s'.mapping == s.mapping && |s'.apps| == |s.apps|
      && forall k :: 0 <= k < |s.apps| ==>
           s'.apps[k] == Unbound(BindingFor(cfg, secret), s.apps[k], SelectionFor(cfg, s.mapping).value)
  {
    hide AtHome, SelectionFor, Processed, Unbound;
    UnbindStores(cfg, s, g, realms);
    assert WithoutFinalizer([FINALIZER]) == [];
  }

  /**
   * Create, delete: with favourable calls the binding is gone after the last
   * reconcile, and every workload is restored. The secret that is removed is the
   * one that the first reconcile persisted and recorded.
   */
  lemma UndoneRun(cfg: Config, s: Cluster, f: Fate, g: Fate)
    requires s.binding.Some? && Idle(s.binding.value) && s.apps != [] && SelectionFor(cfg, s.mapping).Some?
    requires Favourable(f) && f.collection.Collected? && f.collection.persisted && f.collection.secret != ""
    requires Favourable(g)
    requires AllUndisturbed(BindingFor(cfg, f.collection.secret), s.apps, SelectionFor(cfg, s.mapping).value)
    ensures var s' := After(cfg, s, [Reconcile(f), DeleteBinding, Reconcile(g)]);
      && s'.binding.None? && s'.mapping == s.mapping && |s'.apps| == |s.apps|
      && Reconciled(cfg, s, f).binding.Some? && Reconciled(cfg, s, f).binding.value.secret == f.collection.secret
      && forall k :: 0 <= k < |s.apps| ==>
           Restored(BindingFor(cfg, f.collection.secret), s.apps[k], s'.apps[k], SelectionFor(cfg, s.mapping).value)
  {
    hide AtHome, SelectionFor, Reconciled, Bound, Unbound, Restored, Undisturbed, OwnRealm, After;
    var sel := SelectionFor(cfg, s.mapping).value;
    var b := BindingFor(cfg, f.collection.secret);
    var realms := OwnRealms(s.apps, sel);
    OwnHoused(cfg, s, b);
    FirstReconcile(cfg, s, f, realms);
    var s1 := Reconciled(cfg, s, f);
    BoundStillHoused(cfg, s, s1, b, sel, cfg.lenient, realms);
    var s2 := BindingDeleted(s1);
    LastReconcile(cfg, s2, g, f.collection.secret, realms);
    var s3 := Reconciled(cfg, s2, g);
    AfterThree(cfg, s, Reconcile(f), DeleteBinding, Reconcile(g));
    forall k | 0 <= k < |s.apps| ensures Restored(b, s.apps[k], s3.apps[k], sel) {
      Undone(b, s.apps[k], sel, cfg.lenient);
    }
  }
}
