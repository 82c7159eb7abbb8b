/**
 Where the signs of a binding are, over every run of the protocol: only at the
 places of the mapping in force, and at most once in each list. A sign is a
 volume or mount of its name, a reference to its secret, or a variable.
 */
module Rebinding {

  import opened Documents
  import opened Entries
  import opened Pods
  import opened Views
  import opened Projection
  import opened Slots
  import opened Laws
  import opened Templates
  import opened Stored
  import opened Signs
  import opened Pipelines
  import opened Protocol

  /** The lists of one workload that any mapping of a run may designate, and
      the containers that each selection finds there. */
  datatype Realm = Realm(ts: set<Target>, sites: map<Selection, seq<MetaContainer>>)

  ghost predicate AtHome(d: Json, r: Realm)
  {
    Plain(d) && Tidy(d, r.ts, r.sites.Keys) &&
    forall sel :: sel in r.sites ==> Ready(d, r.ts, r.sites.Keys, Site(sel, r.sites[sel]))
  }

  /** How many entries of a list show the sign. */
  function SignCount(d: Json, t: Target, x: Sign): nat
  {
    Count(t.kind, Listed(Read(d, t.loc, t.kind)), Tag(x))
  }

  // ---- One workload ----

  /** Each list shows the sign at most once, and only lists of the site do. */
  ghost predicate Placed(d: Json, r: Realm, x: Sign, site: Site)
  {
    forall t :: t in r.ts && Shows(t, x) ==> SignCount(d, t, x) <= 1 && (SignCount(d, t, x) > 0 ==> Owns(site, t, x))
  }

  ghost predicate NotBound(d: Json, r: Realm, x: Sign)
  {
    forall t :: t in r.ts && Shows(t, x) ==> SignCount(d, t, x) == 0
  }

  lemma BoundHome(b: Binding, d: Json, r: Realm, sel: Selection, lenient: bool)
    requires AtHome(d, r) && sel in r.sites
    ensures AtHome(Bound(b, d, sel, lenient), r)
  {
    hide Bound;
    BoundRefines(b, d, r.ts, r.sites.Keys, Site(sel, r.sites[sel]), lenient);
    HomeKept(d, Bound(b, d, sel, lenient), r);
  }

  lemma UnboundHome(b: Binding, d: Json, r: Realm, sel: Selection)
    requires AtHome(d, r) && sel in r.sites
    ensures UnbindDoc(b, d, sel).UnbindDone? && AtHome(Unbound(b, d, sel), r)
  {
    hide Unbound;
    UnboundRefines(b, d, r.ts, r.sites.Keys, Site(sel, r.sites[sel]));
    HomeKept(d, Unbound(b, d, sel), r);
  }

  lemma BoundPlaced(b: Binding, d: Json, r: Realm, sel: Selection, lenient: bool, t: Target, x: Sign)
    requires AtHome(d, r) && sel in r.sites && t in r.ts && Shows(t, x) && Sane(b.env, x)
    ensures SignCount(Bound(b, d, sel, lenient), t, x) ==
      if Leaves(b, x) && Owns(Site(sel, r.sites[sel]), t, x) then AtLeastOne(SignCount(d, t, x)) else SignCount(d, t, x)
  {
    hide Bound, Owns, Count, Sane, Leaves, Shows, ProjectV;
    var site := Site(sel, r.sites[sel]);
    BoundRefines(b, d, r.ts, r.sites.Keys, site, lenient);
    assert ViewOf(d, r.ts)[t] == Read(d, t.loc, t.kind);
    ProjectSign(b, ViewOf(d, r.ts), site, t, x);
    assert ViewOf(Bound(b, d, sel, lenient), r.ts)[t] == Read(Bound(b, d, sel, lenient), t.loc, t.kind);
  }

  lemma UnboundPlaced(b: Binding, d: Json, r: Realm, sel: Selection, t: Target, x: Sign)
    requires AtHome(d, r) && sel in r.sites && t in r.ts && Shows(t, x) && Sane(b.env, x)
    requires Removes(b, x) && Owns(Site(sel, r.sites[sel]), t, x) ==> SignCount(d, t, x) <= 1
    ensures SignCount(Unbound(b, d, sel), t, x) ==
      if Removes(b, x) && Owns(Site(sel, r.sites[sel]), t, x) then 0 else SignCount(d, t, x)
  {
    hide Unbound, Owns, Count, Sane, Removes, Shows, UnbindV;
    var site := Site(sel, r.sites[sel]);
    UnboundRefines(b, d, r.ts, r.sites.Keys, site);
    assert ViewOf(d, r.ts)[t] == Read(d, t.loc, t.kind);
    UnbindSign(b, ViewOf(d, r.ts), site, t, x);
    assert ViewOf(Unbound(b, d, sel), r.ts)[t] == Read(Unbound(b, d, sel), t.loc, t.kind);
  }

  lemma HomeKept(d: Json, e: Json, r: Realm)
    requires AtHome(d, r) && Plain(e) && Follows(d, e, r.ts, r.sites.Keys)
    ensures AtHome(e, r)
  {
    forall sel | sel in r.sites ensures Ready(e, r.ts, r.sites.Keys, Site(sel, r.sites[sel])) {
      ReadyKept(d, e, r.ts, r.sites.Keys, Site(sel, r.sites[sel]));
    }
  }

  // ---- What a run of the pipeline can do to a workload ----

  /** The write of application `k`, the one at position `i + k`, is needed and refused. */
  predicate RefusedAt(stored: seq<Json>, docs: seq<Json>, touched: bool, refused: set<nat>, i: nat, k: nat)
    requires |stored| == |docs|
  {
    k < |docs| && (!touched || docs[k] != stored[k]) && i + k in refused
  }

  /** Neither the write of application `k` nor one before it is needed and refused. */
  predicate Reached(stored: seq<Json>, docs: seq<Json>, touched: bool, refused: set<nat>, i: nat, k: nat)
    requires |stored| == |docs|
  {
    forall j: nat :: j <= k ==> !RefusedAt(stored, docs, touched, refused, i, j)
  }

  lemma RefusedTail(stored: seq<Json>, docs: seq<Json>, touched: bool, refused: set<nat>, i: nat, k: nat)
    requires |stored| == |docs| > 0 && k > 0
    ensures RefusedAt(stored, docs, touched, refused, i, k) <==>
      RefusedAt(stored[1..], docs[1..], touched, refused, i + 1, k - 1)
  {
    assert i + 1 + (k - 1) == i + k;
  }

  lemma ReachedTail(stored: seq<Json>, docs: seq<Json>, touched: bool, refused: set<nat>, i: nat, k: nat)
    requires |stored| == |docs| > 0 && k > 0 && !RefusedAt(stored, docs, touched, refused, i, 0)
    ensures Reached(stored, docs, touched, refused, i, k) <==>
      Reached(stored[1..], docs[1..], touched, refused, i + 1, k - 1)
  {
    hide RefusedAt;
    forall j: nat | 0 < j
      ensures RefusedAt(stored, docs, touched, refused, i, j) <==>
        RefusedAt(stored[1..], docs[1..], touched, refused, i + 1, j - 1)
    {
      RefusedTail(stored, docs, touched, refused, i, j);
    }
    var next := i + 1;
    if !Reached(stored[1..], docs[1..], touched, refused, next, k - 1) {
      var j: nat :| j <= k - 1 && RefusedAt(stored[1..], docs[1..], touched, refused, next, j);
      assert RefusedAt(stored, docs, touched, refused, i, j + 1);
    }
  }

  /** Close stores an application exactly if the writes reach it. */
  lemma {:induction false} WriteEach(
    stored: seq<Json>, docs: seq<Json>, touched: bool, refused: set<nat>, i: nat, k: nat)
    requires |stored| == |docs| && k < |docs| && Plain(stored[k])
    ensures var w := WriteApps(stored, docs, touched, refused, i);
      && |w.0| == |docs|
      && w.0[k] == (if Reached(stored, docs, touched, refused, i, k) then Norm(docs[k]) else stored[k])
      && (w.1 ==> Reached(stored, docs, touched, refused, i, k))
    decreases |docs|
  {
    hide Norm, Reached;
    assert RefusedAt(stored, docs, touched, refused, i, 0) <==> (!touched || docs[0] != stored[0]) && i + 0 in refused;
    WriteLength(stored, docs, touched, refused, i);
    ReachedFirst(stored, docs, touched, refused, i, k);
    if !RefusedAt(stored, docs, touched, refused, i, 0) && k > 0 {
      ReachedTail(stored, docs, touched, refused, i, k);
      WriteEach(stored[1..], docs[1..], touched, refused, i + 1, k - 1);
    }
  }

  lemma ReachedFirst(stored: seq<Json>, docs: seq<Json>, touched: bool, refused: set<nat>, i: nat, k: nat)
    requires |stored| == |docs|
    ensures RefusedAt(stored, docs, touched, refused, i, 0) ==> !Reached(stored, docs, touched, refused, i, k)
    ensures k == 0 && !RefusedAt(stored, docs, touched, refused, i, 0) ==>
      Reached(stored, docs, touched, refused, i, k)
  {
    hide RefusedAt;
  }

  lemma {:induction false} WriteLength(stored: seq<Json>, docs: seq<Json>, touched: bool, refused: set<nat>, i: nat)
    requires |stored| == |docs|
    ensures |WriteApps(stored, docs, touched, refused, i).0| == |docs|
    ensures refused == {} ==> WriteApps(stored, docs, touched, refused, i).1
    decreases |docs|
  {
    if docs != [] { WriteLength(stored[1..], docs[1..], touched, refused, i + 1); }
  }

  lemma {:induction false} UnbindAllAt(b: Binding, docs: seq<Json>, sel: Selection, k: nat)
    requires UnbindAll(b, docs, sel).AllDone? && k < |docs|
    ensures |UnbindAll(b, docs, sel).docs| == |docs|
    ensures UnbindAll(b, docs, sel).docs[k] == UnbindDoc(b, docs[k], sel).doc && UnbindDoc(b, docs[k], sel).UnbindDone?
  {
    hide UnbindDoc;
    UnbindAllLength(b, docs, sel);
    if k > 0 { UnbindAllAt(b, docs[1..], sel, k - 1); }
  }

  lemma {:induction false} AsEnvEach(b: Binding, docs: seq<Json>, sel: Selection, lenient: bool, k: nat)
    requires AsEnvAll(b, docs, sel, lenient).Some? && k < |docs|
    ensures |AsEnvAll(b, docs, sel, lenient).value| == |docs|
    ensures Outcome(AsEnvAll(b, docs, sel, lenient).value[k], true) == AsEnvDoc(b, docs[k], sel, lenient)
  {
    hide AsEnvDoc;
    AsEnvAllLength(b, docs, sel, lenient);
    if k > 0 { AsEnvEach(b, docs[1..], sel, lenient, k - 1); }
  }

  lemma {:induction false} AsFilesEach(b: Binding, docs: seq<Json>, sel: Selection, lenient: bool, k: nat)
    requires AsFilesAll(b, docs, sel, lenient).Some? && k < |docs|
    ensures |AsFilesAll(b, docs, sel, lenient).value| == |docs|
    ensures Outcome(AsFilesAll(b, docs, sel, lenient).value[k], true) == AsFilesDoc(b, docs[k], sel, lenient)
  {
    hide AsFilesDoc;
    AsFilesAllLength(b, docs, sel, lenient);
    if k > 0 { AsFilesEach(b, docs[1..], sel, lenient, k - 1); }
  }

  lemma ProjectEach(b: Binding, docs: seq<Json>, sel: Selection, lenient: bool, k: nat)
    requires ProjectAll(b, docs, sel, lenient).Some? && k < |docs|
    ensures |ProjectAll(b, docs, sel, lenient).value| == |docs|
    ensures Outcome(ProjectAll(b, docs, sel, lenient).value[k], true) == ProjectDoc(b, docs[k], sel, lenient)
  {
    hide AsEnvDoc, AsFilesDoc;
    AsEnvEach(b, docs, sel, lenient, k);
    AsFilesEach(b, AsEnvAll(b, docs, sel, lenient).value, sel, lenient, k);
  }

  /** The workload is left alone, unbound, or bound, at the mapping in force. */
  ghost predicate Moved(cfg: Config, s: Cluster, m: BindingObject, f: Fate, d: Json, e: Json)
  {
    e == d ||
    (var sel := SelectionFor(cfg, Current(s, m));
     sel.Some? &&
     if UnbindRequested(m) then m.secret != "" && e == Unbound(BindingFor(cfg, m.secret), d, sel.value)
     else f.collection.Collected? && e == Bound(BindingFor(cfg, f.collection.secret), d, sel.value, cfg.lenient))
  }

  lemma HandlerDocs(cfg: Config, s: Cluster, m: BindingObject, f: Fate, k: nat)
    requires k < |s.apps| && Plain(s.apps[k])
    ensures |Handlers(cfg, s, m, f).docs| == |s.apps|
    ensures Moved(cfg, s, m, f, s.apps[k], Norm(Handlers(cfg, s, m, f).docs[k]))
  {
    hide Norm, SelectionFor, UnbindDoc, ProjectDoc, UnbindAll, ProjectAll;
    HandlersLength(cfg, s, m, f);
    var sel := SelectionFor(cfg, Current(s, m));
    assert Norm(s.apps[k]) == s.apps[k];
    if UnbindRequested(m) {
      if f.lookup && sel.Some? && s.apps != [] && m.secret != "" {
        var b := BindingFor(cfg, m.secret);
        if UnbindAll(b, s.apps, sel.value).AllDone? { UnbindAllAt(b, s.apps, sel.value, k); }
      }
    } else if f.collection.Collected? && f.lookup && sel.Some? {
      var b := BindingFor(cfg, f.collection.secret);
      if ProjectAll(b, s.apps, sel.value, cfg.lenient).Some? { ProjectEach(b, s.apps, sel.value, cfg.lenient, k); }
    }
  }

  lemma CloseDocs(s: Cluster, p: Pass, f: Fate, k: nat)
    requires s.binding.Some? && |p.docs| == |s.apps| && k < |s.apps| && Plain(s.apps[k])
    ensures var c := Close(s, p, f);
      && |c.0.apps| == |s.apps| && c.0.mapping == s.mapping && c.0.binding.Some?
      && c.0.binding.value.deleted == s.binding.value.deleted
      && (c.0.apps[k] == s.apps[k] || c.0.apps[k] == Norm(p.docs[k]))
      && (!p.err && p.loaded && f.refused == {} ==> c.0.apps[k] == Norm(p.docs[k]))
  {
    hide Norm, WriteApps;
    WriteEach(s.apps, p.docs, p.touched, f.refused, 0, k);
    WriteLength(s.apps, p.docs, p.touched, f.refused, 0);
  }

  lemma PlacedBound(b: Binding, d: Json, r: Realm, sel: Selection, lenient: bool, x: Sign)
    requires AtHome(d, r) && sel in r.sites && Sane(b.env, x) && Placed(d, r, x, Site(sel, r.sites[sel]))
    ensures var e := Bound(b, d, sel, lenient);
      && AtHome(e, r) && Placed(e, r, x, Site(sel, r.sites[sel]))
      && (Leaves(b, x) ==>
            forall t :: t in r.ts && Shows(t, x) && Owns(Site(sel, r.sites[sel]), t, x) ==> SignCount(e, t, x) == 1)
  {
    hide Bound, Owns, SignCount, AtHome, Sane, Leaves, Shows;
    BoundHome(b, d, r, sel, lenient);
    forall t | t in r.ts && Shows(t, x)
      ensures SignCount(Bound(b, d, sel, lenient), t, x) ==
        if Leaves(b, x) && Owns(Site(sel, r.sites[sel]), t, x) then 1 else SignCount(d, t, x)
    {
      BoundPlaced(b, d, r, sel, lenient, t, x);
    }
  }

  lemma PlacedUnbound(b: Binding, d: Json, r: Realm, sel: Selection, x: Sign)
    requires AtHome(d, r) && sel in r.sites && Sane(b.env, x) && Placed(d, r, x, Site(sel, r.sites[sel]))
    ensures var e := Unbound(b, d, sel);
      && AtHome(e, r) && UnbindDoc(b, d, sel).UnbindDone? && Placed(e, r, x, Site(sel, r.sites[sel]))
      && (Removes(b, x) ==> NotBound(e, r, x))
  {
    hide Unbound, UnbindDoc, Owns, SignCount, AtHome, Sane, Removes, Shows;
    UnboundHome(b, d, r, sel);
    forall t | t in r.ts && Shows(t, x)
      ensures SignCount(Unbound(b, d, sel), t, x) == if Removes(b, x) then 0 else SignCount(d, t, x)
    {
      UnboundPlaced(b, d, r, sel, t, x);
    }
  }

  // ---- One reconcile ----

  lemma ReconcileApps(cfg: Config, s: Cluster, f: Fate, k: nat)
    requires s.binding.Some? && k < |s.apps| && Plain(s.apps[k])
    ensures var s' := Reconciled(cfg, s, f);
      && |s'.apps| == |s.apps| && s'.mapping == s.mapping
      && Moved(cfg, s, s.binding.value, f, s.apps[k], s'.apps[k])
  {
    hide Moved, Handlers, Close;
    var b := s.binding.value;
    var add := !b.deleted && FINALIZER !in b.finalizers;
    if f.get && (add ==> f.finalizerWrite) {
      var m := if add then b.(finalizers := WithFinalizer(b.finalizers)) else b;
      var s1 := s.(binding := Some(m));
      HandlerDocs(cfg, s1, m, f, k);
      CloseDocs(s1, Handlers(cfg, s1, m, f), f, k);
      MovedAlike(cfg, s, s1, b, m, f, s.apps[k], Processed(cfg, s1, f).0.apps[k]);
    } else {
      StillMoved(cfg, s, b, f, s.apps[k]);
    }
  }

  lemma StillMoved(cfg: Config, s: Cluster, m: BindingObject, f: Fate, d: Json)
    ensures Moved(cfg, s, m, f, d, d)
  {
  }

  /** Adding a finalizer changes nothing about what a run does. */
  lemma MovedAlike(cfg: Config, s: Cluster, s1: Cluster, b: BindingObject, m: BindingObject, f: Fate, d: Json, e: Json)
    requires s1.mapping == s.mapping && m == b.(finalizers := m.finalizers)
    requires e == d || Moved(cfg, s1, m, f, d, e)
    ensures Moved(cfg, s, b, f, d, e)
  {
    hide SelectionFor, Bound, Unbound;
  }

  lemma {:induction false} AllUnbindable(b: Binding, docs: seq<Json>, sel: Selection)
    requires forall k :: 0 <= k < |docs| ==> UnbindDoc(b, docs[k], sel).UnbindDone?
    ensures UnbindAll(b, docs, sel).AllDone?
  {
    hide UnbindDoc;
    if docs != [] {
      assert UnbindDoc(b, docs[0], sel).UnbindDone?;
      AllUnbindable(b, docs[1..], sel);
    }
  }

  /** The reconcile comes to unbind, and stores the binding afterwards. The
      writes of applications play no part in this. */
  predicate Clears(cfg: Config, s: Cluster, f: Fate)
    requires s.binding.Some?
  {
    var b := s.binding.value;
    && f.get && (!b.deleted && FINALIZER !in b.finalizers ==> f.finalizerWrite)
    && f.lookup && SelectionFor(cfg, Current(s, b)).Some? && s.apps != [] && b.secret != ""
    && f.statusWrite && f.metaWrite
  }

  /** Unbinding workload `k` is written: no workload up to it that unbinding
      changes is refused. */
  predicate Unimpeded(cfg: Config, s: Cluster, f: Fate, k: nat)
    requires s.binding.Some? && SelectionFor(cfg, Current(s, s.binding.value)).Some?
  {
    var b, sel := BindingFor(cfg, s.binding.value.secret), SelectionFor(cfg, Current(s, s.binding.value)).value;
    forall j: nat :: j <= k && j < |s.apps| && UnbindDoc(b, s.apps[j], sel).doc != s.apps[j] ==> j !in f.refused
  }

  lemma UnimpededIs(cfg: Config, s: Cluster, f: Fate, k: nat)
    requires s.binding.Some? && SelectionFor(cfg, Current(s, s.binding.value)).Some?
    requires var r := UnbindAll(BindingFor(cfg, s.binding.value.secret), s.apps,
                                SelectionFor(cfg, Current(s, s.binding.value)).value);
      r.AllDone? && |r.docs| == |s.apps|
    ensures var r := UnbindAll(BindingFor(cfg, s.binding.value.secret), s.apps,
                               SelectionFor(cfg, Current(s, s.binding.value)).value);
      Reached(s.apps, r.docs, true, f.refused, 0, k) <==> Unimpeded(cfg, s, f, k)
  {
    hide SelectionFor, UnbindDoc, UnbindAll;
    var b, sel := BindingFor(cfg, s.binding.value.secret), SelectionFor(cfg, Current(s, s.binding.value)).value;
    var docs := UnbindAll(b, s.apps, sel).docs;
    forall j: nat | j < |s.apps|
      ensures RefusedAt(s.apps, docs, true, f.refused, 0, j) <==>
        UnbindDoc(b, s.apps[j], sel).doc != s.apps[j] && j in f.refused
    {
      UnbindAllAt(b, s.apps, sel, j);
      assert 0 + j == j;
    }
  }

  /** The Unbind handler comes to its end with every workload unbound. */
  predicate AllRemoved(cfg: Config, s: Cluster, f: Fate)
    requires s.binding.Some?
  {
    var b := s.binding.value;
    var sel := SelectionFor(cfg, Current(s, b));
    f.lookup && sel.Some? && s.apps != [] && b.secret != "" &&
    UnbindAll(BindingFor(cfg, b.secret), s.apps, sel.value).AllDone?
  }

  /** What the run of an annotated binding stores. */
  lemma AnnotatedRun(cfg: Config, s: Cluster, f: Fate)
    requires s.binding.Some? && s.binding.value.annotation.Some?
    ensures var b, r := s.binding.value, Processed(cfg, s, f);
      && r.0.binding.Some? && |r.0.apps| == |s.apps|
      && if AllRemoved(cfg, s, f) then
           && r.1.retry
           && r.0.binding.value.annotation == if f.statusWrite && f.metaWrite then None else b.annotation
         else r.0.binding.value.annotation == b.annotation && r.1.memory.annotation == b.annotation
  {
    hide SelectionFor, UnbindAll, WriteApps;
    var b := s.binding.value;
    HandlersLength(cfg, s, b, f);
    var p := Handlers(cfg, s, b, f);
    WriteLength(s.apps, p.docs, p.touched, f.refused, 0);
  }

  /** Which workloads that run stores unbound. */
  lemma AnnotatedApps(cfg: Config, s: Cluster, f: Fate, k: nat)
    requires s.binding.Some? && s.binding.value.annotation.Some? && k < |s.apps| && Plain(s.apps[k])
    requires AllRemoved(cfg, s, f)
    ensures |Processed(cfg, s, f).0.apps| == |s.apps|
    ensures var b := s.binding.value;
      Processed(cfg, s, f).0.apps[k] ==
        if Unimpeded(cfg, s, f, k)
        then Unbound(BindingFor(cfg, b.secret), s.apps[k], SelectionFor(cfg, Current(s, b)).value) else s.apps[k]
  {
    hide Norm, SelectionFor, UnbindAll, UnbindDoc, WriteApps, Unimpeded, Reached, Plain;
    var b := s.binding.value;
    var bd, sel := BindingFor(cfg, b.secret), SelectionFor(cfg, Current(s, b)).value;
    HandlersLength(cfg, s, b, f);
    WriteEach(s.apps, Handlers(cfg, s, b, f).docs, true, f.refused, 0, k);
    UnbindAllAt(bd, s.apps, sel, k);
    UnimpededIs(cfg, s, f, k);
  }

  /** A pending annotation leaves the stored binding exactly if every workload
      could be unbound and the binding is stored; then those workloads are
      stored unbound that the writes reach, and the others stay as they were. */
  lemma AnnotationCleared(cfg: Config, s: Cluster, f: Fate, k: nat)
    requires s.binding.Some? && s.binding.value.annotation.Some? && k < |s.apps| && Plain(s.apps[k])
    ensures |Reconciled(cfg, s, f).apps| == |s.apps|
    ensures var b, s' := s.binding.value, Reconciled(cfg, s, f);
      if Clears(cfg, s, f) && AllRemoved(cfg, s, f) then
        && s'.binding.Some? && s'.binding.value.annotation.None?
        && s'.apps[k] ==
             if Unimpeded(cfg, s, f, k)
             then Unbound(BindingFor(cfg, b.secret), s.apps[k], SelectionFor(cfg, Current(s, b)).value) else s.apps[k]
      else s'.binding.Some? ==> s'.binding.value.annotation == b.annotation
  {
    hide SelectionFor, UnbindAll, UnbindDoc, Unbound, Processed, Plain;
    var b := s.binding.value;
    var add := !b.deleted && FINALIZER !in b.finalizers;
    if f.get && (add ==> f.finalizerWrite) {
      var s1 := s.(binding := Some(if add then b.(finalizers := WithFinalizer(b.finalizers)) else b));
      AnnotatedRun(cfg, s1, f);
      if AllRemoved(cfg, s, f) { AnnotatedApps(cfg, s1, f, k); }
    }
  }

  // ---- The invariant ----

  /** Every workload knows the selection of the mapping. */
  ghost predicate Charted(cfg: Config, m: Option<ResourceMapping>, realms: seq<Realm>)
  {
    SelectionFor(cfg, m).Some? && forall k :: 0 <= k < |realms| ==> SelectionFor(cfg, m).value in realms[k].sites
  }

  /** The site of a mapping in a workload. */
  ghost function SiteFor(cfg: Config, m: Option<ResourceMapping>, r: Realm): Site
    requires SelectionFor(cfg, m).Some? && SelectionFor(cfg, m).value in r.sites
  {
    var sel := SelectionFor(cfg, m).value;
    Site(sel, r.sites[sel])
  }

  ghost predicate Housed(s: Cluster, realms: seq<Realm>)
  {
    |s.apps| == |realms| && forall k :: 0 <= k < |realms| ==> AtHome(s.apps[k], realms[k])
  }

  /** The signs are at places of the mapping only. */
  ghost predicate AllPlaced(cfg: Config, s: Cluster, m: Option<ResourceMapping>, realms: seq<Realm>, x: Sign)
    requires |s.apps| == |realms| && Charted(cfg, m, realms)
  {
    forall k :: 0 <= k < |realms| ==> Placed(s.apps[k], realms[k], x, SiteFor(cfg, m, realms[k]))
  }

  /** The signs are at places of the mapping in force only: the annotated
      mapping if there is one, otherwise the stored one. The secret on record
      is one whose unbinding removes the sign. */
  ghost predicate InPlace(cfg: Config, s: Cluster, realms: seq<Realm>, x: Sign)
  {
    && Sane(cfg.env, x)
    && Housed(s, realms)
    && Charted(cfg, s.mapping, realms)
    && (s.binding.Some? ==>
          var b := s.binding.value;
          && (b.secret != "" ==> Removes(BindingFor(cfg, b.secret), x))
          && Charted(cfg, Current(s, b), realms) && AllPlaced(cfg, s, Current(s, b), realms, x))
  }

  /** Whatever secret the run records, unbinding it removes the sign. For
      volumes and mounts every secret does. */
  predicate Keeps(cfg: Config, c: Collection, x: Sign)
  {
    match c
    case Halted(_, _, recorded) =>
      recorded.Some? && recorded.value != "" ==> Removes(BindingFor(cfg, recorded.value), x)
    case Collected(secret, _) => secret != "" ==> Removes(BindingFor(cfg, secret), x)
  }

  /** The list belongs to no place of the mapping. */
  ghost predicate Foreign(cfg: Config, m: Option<ResourceMapping>, r: Realm, t: Target, x: Sign)
  {
    SelectionFor(cfg, m).Some? && SelectionFor(cfg, m).value in r.sites && !Owns(SiteFor(cfg, m, r), t, x)
  }

  /** No list that shows the sign is foreign to the mapping. */
  ghost predicate NoneForeign(cfg: Config, s: Cluster, m: Option<ResourceMapping>, realms: seq<Realm>, x: Sign)
    requires |s.apps| == |realms|
  {
    forall k, t :: 0 <= k < |realms| && t in realms[k].ts && Shows(t, x) && SignCount(s.apps[k], t, x) > 0 ==>
      !Foreign(cfg, m, realms[k], t, x)
  }

  /** The webhook annotates the binding, and finds no annotation pending. */
  predicate Noticed(cfg: Config, s: Cluster)
  {
    s.binding.Some? && s.binding.value.annotation.None? && s.mapping.Some? && Accepts(s.mapping.value, cfg.gvr)
  }

  predicate OnMapping(step: Event)
  {
    step.CreateMapping? || step.UpdateMapping? || step.DeleteMapping?
  }

  /** The stored mapping after a step of its own. */
  function MappingAfter(s: Cluster, step: Event): Option<ResourceMapping>
    requires OnMapping(step)
  {
    match step
    case CreateMapping(m) => if s.mapping.None? && Valid(m) then Some(m) else s.mapping
    case UpdateMapping(m, u) => if s.mapping.Some? && Valid(m) && u.Stored? then Some(m) else s.mapping
    case DeleteMapping => None
  }

  /** An update that is refused before it annotates the binding. */
  predicate Rejected(s: Cluster, step: Event)
  {
    step.UpdateMapping? && (s.mapping.None? || !Valid(step.mapping) || step.u.Refused?)
  }

  /** The mapping in force for a binding after a step on the mapping. */
  function ForceAfter(cfg: Config, s: Cluster, b: BindingObject, step: Event): Option<ResourceMapping>
    requires OnMapping(step)
  {
    if step.UpdateMapping? && s.mapping.Some? && Accepts(s.mapping.value, cfg.gvr) then s.mapping
    else if b.annotation.Some? then b.annotation
    else MappingAfter(s, step)
  }

  /** A binding notices the step with nothing pending, or nothing of it is out
      of place afterwards. */
  ghost predicate Harmless(cfg: Config, s: Cluster, step: Event, realms: seq<Realm>, x: Sign)
    requires OnMapping(step) && |s.apps| == |realms|
  {
    s.binding.Some? ==>
      || (step.UpdateMapping? && Noticed(cfg, s))
      || NoneForeign(cfg, s, ForceAfter(cfg, s, s.binding.value, step), realms, x)
  }

  /** A pending annotation is not cleared while a sign stays in a list foreign
      to the stored mapping: the writes reach every workload with such a sign. */
  ghost predicate Lossless(cfg: Config, s: Cluster, f: Fate, realms: seq<Realm>, x: Sign)
    requires s.binding.Some? && |s.apps| == |realms|
  {
    s.binding.value.annotation.Some? && Clears(cfg, s, f) ==>
      forall k, t ::
        (0 <= k < |realms| && t in realms[k].ts && Shows(t, x) && SignCount(s.apps[k], t, x) > 0 &&
         Foreign(cfg, s.mapping, realms[k], t, x)) ==> Unimpeded(cfg, s, f, k)
  }

  /** The steps under which the invariant is kept. A reconcile that projects
      records a secret whose unbinding removes the sign, and one that clears an
      annotation loses nothing. A mapping changes harmlessly. A binding is
      created on workloads that show no sign of it. */
  ghost predicate Orderly(cfg: Config, s: Cluster, step: Event, realms: seq<Realm>, x: Sign)
    requires |s.apps| == |realms|
  {
    match step
    case Reconcile(f) =>
      s.binding.Some? ==>
        (UnbindRequested(s.binding.value) || Keeps(cfg, f.collection, x)) && Lossless(cfg, s, f, realms, x)
    case CreateBinding => s.binding.None? ==> forall k :: 0 <= k < |realms| ==> NotBound(s.apps[k], realms[k], x)
    case DeleteBinding => true
    case _ => Rejected(s, step) || (Charted(cfg, MappingAfter(s, step), realms) && Harmless(cfg, s, step, realms, x))
  }

  lemma MovedPlaced(cfg: Config, s: Cluster, f: Fate, r: Realm, d: Json, e: Json, x: Sign)
    requires s.binding.Some? && Sane(cfg.env, x) && AtHome(d, r)
    requires var m := Current(s, s.binding.value); SelectionFor(cfg, m).Some? && SelectionFor(cfg, m).value in r.sites
    requires Placed(d, r, x, SiteFor(cfg, Current(s, s.binding.value), r))
    requires Moved(cfg, s, s.binding.value, f, d, e)
    ensures AtHome(e, r) && Placed(e, r, x, SiteFor(cfg, Current(s, s.binding.value), r))
  {
    hide AtHome, SelectionFor, Bound, Unbound, Placed, Sane;
    var b := s.binding.value;
    var sel := SelectionFor(cfg, Current(s, b)).value;
    if e != d {
      if UnbindRequested(b) {
        PlacedUnbound(BindingFor(cfg, b.secret), d, r, sel, x);
      } else {
        PlacedBound(BindingFor(cfg, f.collection.secret), d, r, sel, cfg.lenient, x);
      }
    }
  }

  /** Through any reconcile the signs stay at places of the mapping that was
      in force, and the secret on record removes them. */
  lemma ReconcilePlaced(cfg: Config, s: Cluster, f: Fate, realms: seq<Realm>, x: Sign)
    requires InPlace(cfg, s, realms, x) && s.binding.Some?
    requires UnbindRequested(s.binding.value) || Keeps(cfg, f.collection, x)
    ensures var s' := Reconciled(cfg, s, f);
      && Housed(s', realms) && s'.mapping == s.mapping
      && AllPlaced(cfg, s', Current(s, s.binding.value), realms, x)
      && (s'.binding.Some? && s'.binding.value.secret != "" ==> Removes(BindingFor(cfg, s'.binding.value.secret), x))
  {
    hide AtHome, SelectionFor, Placed, Moved, Plain, Removes, Sane, Reconciled;
    var s' := Reconciled(cfg, s, f);
    ReconcileMapping(cfg, s, f);
    forall k | 0 <= k < |realms|
      ensures AtHome(s'.apps[k], realms[k])
      ensures Placed(s'.apps[k], realms[k], x, SiteFor(cfg, Current(s, s.binding.value), realms[k]))
    {
      HomePlain(s.apps[k], realms[k]);
      ReconcileApps(cfg, s, f, k);
      MovedPlaced(cfg, s, f, realms[k], s.apps[k], s'.apps[k], x);
    }
    if s'.binding.Some? { SecretAfter(cfg, s, f); }
  }

  lemma AllDoneAtHome(cfg: Config, s: Cluster, f: Fate, realms: seq<Realm>)
    requires Housed(s, realms) && s.binding.Some? && Charted(cfg, Current(s, s.binding.value), realms)
    requires Clears(cfg, s, f)
    ensures s.apps != [] && s.binding.value.secret != "" && AllRemoved(cfg, s, f)
  {
    hide AtHome, SelectionFor, UnbindDoc, UnbindAll;
    var b := BindingFor(cfg, s.binding.value.secret);
    var sel := SelectionFor(cfg, Current(s, s.binding.value)).value;
    forall k | 0 <= k < |realms| ensures UnbindDoc(b, s.apps[k], sel).UnbindDone? {
      UnboundHome(b, s.apps[k], realms[k], sel);
    }
    AllUnbindable(b, s.apps, sel);
  }

  /** After the annotation was cleared, a sign is left exactly in the workloads
      that the writes did not reach. */
  lemma LeftForeign(cfg: Config, s: Cluster, f: Fate, realms: seq<Realm>, x: Sign)
    requires InPlace(cfg, s, realms, x) && s.binding.Some? && s.binding.value.annotation.Some? && Clears(cfg, s, f)
    ensures |Reconciled(cfg, s, f).apps| == |realms|
    ensures NoneForeign(cfg, Reconciled(cfg, s, f), s.mapping, realms, x) <==> Lossless(cfg, s, f, realms, x)
  {
    hide AtHome, SelectionFor, Placed, Plain, Removes, Sane, Reconciled, Foreign, SignCount, Clears, Unimpeded, Unbound,
      UnbindDoc, AllRemoved, Shows;
    var b, s' := s.binding.value, Reconciled(cfg, s, f);
    var bd := BindingFor(cfg, b.secret);
    ReconcileMapping(cfg, s, f);
    AllDoneAtHome(cfg, s, f, realms);
    forall k, t | 0 <= k < |realms| && t in realms[k].ts && Shows(t, x)
      ensures SignCount(s'.apps[k], t, x) == if Unimpeded(cfg, s, f, k) then 0 else SignCount(s.apps[k], t, x)
    {
      HomePlain(s.apps[k], realms[k]);
      AnnotationCleared(cfg, s, f, k);
      PlacedUnbound(bd, s.apps[k], realms[k], SelectionFor(cfg, Current(s, b)).value, x);
    }
  }

  /** A reconcile keeps a binding's signs in place if and only if it clears no
      annotation, or the writes of unbound workloads reach every workload with
      a sign in a list foreign to the stored mapping. */
  lemma ReconcileKeepsIff(cfg: Config, s: Cluster, f: Fate, realms: seq<Realm>, x: Sign)
    requires InPlace(cfg, s, realms, x) && s.binding.Some?
    requires UnbindRequested(s.binding.value) || Keeps(cfg, f.collection, x)
    ensures InPlace(cfg, Reconciled(cfg, s, f), realms, x) <==> Lossless(cfg, s, f, realms, x)
  {
    hide AtHome, SelectionFor, Placed, Removes, Sane, Reconciled, NoneForeign, Clears, Unimpeded, Keeps, Unbound,
      AllRemoved, Plain;
    var b, s' := s.binding.value, Reconciled(cfg, s, f);
    ReconcilePlaced(cfg, s, f, realms, x);
    if s'.binding.Some? { AnnotationAfter(cfg, s, f); }
    if b.annotation.Some? {
      if Clears(cfg, s, f) {
        AllDoneAtHome(cfg, s, f, realms);
        HomePlain(s.apps[0], realms[0]);
        AnnotationCleared(cfg, s, f, 0);
        LeftForeign(cfg, s, f, realms, x);
        PlacedUnder(cfg, s', Current(s, b), s.mapping, realms, x);
      } else if s.apps != [] {
        HomePlain(s.apps[0], realms[0]);
        AnnotationCleared(cfg, s, f, 0);
      }
    }
  }

  lemma ReconcileNothing(cfg: Config, s: Cluster, f: Fate)
    requires s.binding.None?
    ensures Reconciled(cfg, s, f) == s
  {
  }

  /** A reconcile records no secret but the one it collected. */
  lemma SecretAfter(cfg: Config, s: Cluster, f: Fate)
    requires s.binding.Some? && Reconciled(cfg, s, f).binding.Some?
    ensures var a := Reconciled(cfg, s, f).binding.value.secret;
      a == s.binding.value.secret || (!UnbindRequested(s.binding.value) &&
        ((f.collection.Halted? && f.collection.recorded == Some(a)) ||
         (f.collection.Collected? && f.collection.secret == a)))
  {
    hide Handlers, Close;
    var b := s.binding.value;
    var m := if !b.deleted && FINALIZER !in b.finalizers then b.(finalizers := WithFinalizer(b.finalizers)) else b;
    var s1 := s.(binding := Some(m));
    HandlersLength(cfg, s1, m, f);
    HandlersSecret(cfg, s1, m, f);
    CloseBinding(s1, Handlers(cfg, s1, m, f), f);
  }

  lemma HandlersSecret(cfg: Config, s: Cluster, m: BindingObject, f: Fate)
    ensures var a := Handlers(cfg, s, m, f).memory.secret;
      a == m.secret || (!UnbindRequested(m) &&
        ((f.collection.Halted? && f.collection.recorded == Some(a)) ||
         (f.collection.Collected? && f.collection.secret == a)))
  {
    hide UnbindAll, ProjectAll, SelectionFor;
  }

  lemma HomePlain(d: Json, r: Realm)
    requires AtHome(d, r)
    ensures Plain(d)
  {
  }

  lemma NotBoundPlaced(d: Json, r: Realm, x: Sign, site: Site)
    requires NotBound(d, r, x)
    ensures Placed(d, r, x, site)
  {
  }

  lemma ReconcileMapping(cfg: Config, s: Cluster, f: Fate)
    ensures Reconciled(cfg, s, f).mapping == s.mapping
    ensures |Reconciled(cfg, s, f).apps| == |s.apps|
  {
    hide Handlers, WriteApps;
    if s.binding.Some? {
      var b := s.binding.value;
      var m := if !b.deleted && FINALIZER !in b.finalizers then b.(finalizers := WithFinalizer(b.finalizers)) else b;
      var s1 := s.(binding := Some(m));
      HandlersLength(cfg, s1, m, f);
      var p := Handlers(cfg, s1, m, f);
      WriteLength(s1.apps, p.docs, p.touched, f.refused, 0);
    }
  }

  /** The handlers change nothing of the binding but its secret and, when
      everything was unbound, its annotation. */
  lemma HandlersMemory(cfg: Config, s: Cluster, m: BindingObject, f: Fate)
    ensures var p := Handlers(cfg, s, m, f);
      && p.memory == m.(annotation := p.memory.annotation, secret := p.memory.secret)
      && (p.memory.annotation == m.annotation || p.memory.annotation.None?)
      && (UnbindRequested(m) ==> p.memory.secret == m.secret)
  {
    hide UnbindAll, ProjectAll, SelectionFor;
  }

  /** Close stores the binding's status, or also its metadata, or nothing. */
  lemma CloseBinding(s: Cluster, p: Pass, f: Fate)
    requires s.binding.Some? && |p.docs| == |s.apps|
    ensures Close(s, p, f).0.binding.Some?
    ensures var b, b' := s.binding.value, Close(s, p, f).0.binding.value;
      && b'.deleted == b.deleted
      && (b'.annotation == b.annotation || b'.annotation == p.memory.annotation)
      && (b'.finalizers == b.finalizers || b'.finalizers == p.memory.finalizers)
      && (b'.secret == b.secret || b'.secret == p.memory.secret)
      && (Close(s, p, f).1 ==> b'.annotation == p.memory.annotation && b'.secret == p.memory.secret)
    ensures f.statusWrite && f.metaWrite && f.refused == {} ==> Close(s, p, f).1
  {
    hide WriteApps;
    WriteLength(s.apps, p.docs, p.touched, f.refused, 0);
  }

  /** A reconcile never sets an annotation. */
  lemma AnnotationAfter(cfg: Config, s: Cluster, f: Fate)
    requires s.binding.Some? && Reconciled(cfg, s, f).binding.Some?
    ensures var a := Reconciled(cfg, s, f).binding.value.annotation;
      a == s.binding.value.annotation || a.None?
  {
    hide Handlers, Close;
    var b := s.binding.value;
    var m := if !b.deleted && FINALIZER !in b.finalizers then b.(finalizers := WithFinalizer(b.finalizers)) else b;
    var s1 := s.(binding := Some(m));
    HandlersLength(cfg, s1, m, f);
    HandlersMemory(cfg, s1, m, f);
    CloseBinding(s1, Handlers(cfg, s1, m, f), f);
  }

  /** Signs that were in place stay so under another mapping exactly if none
      is in a list foreign to it. */
  lemma PlacedUnder(
    cfg: Config, s: Cluster, m: Option<ResourceMapping>, n: Option<ResourceMapping>, realms: seq<Realm>, x: Sign)
    requires |s.apps| == |realms| && Charted(cfg, m, realms) && Charted(cfg, n, realms)
    requires AllPlaced(cfg, s, m, realms, x)
    ensures AllPlaced(cfg, s, n, realms, x) <==> NoneForeign(cfg, s, n, realms, x)
  {
    hide SelectionFor, SignCount, Owns, Shows;
  }

  /** A step on the mapping keeps a binding's signs in place if and only if
      the binding notices it with nothing pending, or no sign is in a list
      foreign to the mapping then in force. */
  lemma ChangeKeepsIff(cfg: Config, s: Cluster, step: Event, realms: seq<Realm>, x: Sign)
    requires InPlace(cfg, s, realms, x) && OnMapping(step) && !Rejected(s, step)
    requires Charted(cfg, MappingAfter(s, step), realms)
    ensures InPlace(cfg, Next(cfg, s, step), realms, x) <==> Harmless(cfg, s, step, realms, x)
  {
    hide AtHome, SelectionFor, Placed, Sane, Removes, Valid, Accepts, NoneForeign;
    var s' := Next(cfg, s, step);
    assert s'.apps == s.apps && s'.mapping == MappingAfter(s, step);
    if s.binding.Some? {
      var b := s.binding.value;
      var n := ForceAfter(cfg, s, b, step);
      assert s'.binding.Some? && Current(s', s'.binding.value) == n;
      PlacedUnder(cfg, s, Current(s, b), n, realms, x);
    }
  }

  /** One orderly step keeps every sign in place. */
  lemma StepInPlace(cfg: Config, s: Cluster, step: Event, realms: seq<Realm>, x: Sign)
    requires InPlace(cfg, s, realms, x) && Orderly(cfg, s, step, realms, x)
    ensures InPlace(cfg, Next(cfg, s, step), realms, x)
  {
    hide AtHome, SelectionFor, Placed, Sane, Removes, Harmless, NotBound, Valid, Accepts, Reconciled;
    if OnMapping(step) {
      if !Rejected(s, step) { ChangeKeepsIff(cfg, s, step, realms, x); }
    } else if step.Reconcile? {
      if s.binding.Some? {
        ReconcileKeepsIff(cfg, s, step.f, realms, x);
      } else {
        ReconcileNothing(cfg, s, step.f);
      }
    } else if step.CreateBinding? && s.binding.None? {
      forall k | 0 <= k < |realms| ensures Placed(s.apps[k], realms[k], x, SiteFor(cfg, s.mapping, realms[k])) {
        NotBoundPlaced(s.apps[k], realms[k], x, SiteFor(cfg, s.mapping, realms[k]));
      }
    }
  }

  ghost predicate OrderlyRun(cfg: Config, s: Cluster, steps: seq<Event>, realms: seq<Realm>, x: Sign)
    decreases |steps|
  {
    steps == [] ||
    (|s.apps| == |realms| && Orderly(cfg, s, steps[0], realms, x) &&
     OrderlyRun(cfg, Next(cfg, s, steps[0]), steps[1..], realms, x))
  }

  /** In every orderly run the signs are at places of the mapping in force. */
  lemma {:induction false} RunInPlace(cfg: Config, s: Cluster, steps: seq<Event>, realms: seq<Realm>, x: Sign)
    requires InPlace(cfg, s, realms, x) && OrderlyRun(cfg, s, steps, realms, x)
    ensures InPlace(cfg, After(cfg, s, steps), realms, x)
    decreases |steps|
  {
    hide InPlace, Orderly, Next;
    if steps != [] {
      StepInPlace(cfg, s, steps[0], realms, x);
      RunInPlace(cfg, Next(cfg, s, steps[0]), steps[1..], realms, x);
    }
  }
}
