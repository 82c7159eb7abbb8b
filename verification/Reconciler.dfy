/**
 The reconciler as it works on its objects: contexts with lazily fetched
 applications, handlers that edit them one after the other, the write-back, and
 the finalizer protocol around a run. Each step refines the protocol.
 */
module Reconcilers {

  import opened Documents
  import opened Entries
  import opened Pods
  import opened Views
  import opened Projection
  import opened Templates
  import opened Applications
  import opened Anchors
  import opened Protocol
  import opened Pipelines

  // ---- Documents stay documents ----

  lemma {:induction false} SweepRoot(act: Action, b: Binding, doc: Json, cs: seq<MetaContainer>)
    requires doc.Obj? && forall c :: c in cs ==> EnvT(c).loc != [] && EnvFromT(c).loc != [] && MountT(c).loc != []
    ensures Sweep(act, b, doc, cs).doc.Obj?
    decreases |cs|
  {
    hide ContainerStep;
    if cs != [] {
      assert Holds(doc, []);
      StepKeeps(act, b, doc, cs[0], []);
      var o := ContainerStep(act, b, doc, cs[0]);
      if o.ok { SweepRoot(act, b, o.doc, cs[1..]); }
    }
  }

  lemma AsEnvRoot(b: Binding, doc: Json, sel: Selection, lenient: bool)
    requires Anchored(doc, sel)
    ensures AsEnvDoc(b, doc, sel, lenient).doc.Obj?
  {
    hide Pods.BindablePods, Sweep;
    var pods := BindablePods(doc, sel);
    if pods.Some? {
      forall c | c in pods.value ensures EnvT(c).loc != [] && EnvFromT(c).loc != [] && MountT(c).loc != [] {
        assert !(EnvT(c).loc <= c.loc) && !(EnvFromT(c).loc <= c.loc) && !(MountT(c).loc <= c.loc);
      }
      SweepRoot(AsEnv, b, doc, pods.value);
    }
  }

  // ---- Handlers over all applications ----

  lemma {:induction false} UnbindAllDone(b: Binding, docs: seq<Json>, sel: Selection, outs: seq<Json>)
    requires |docs| == |outs| && forall j :: 0 <= j < |docs| ==> UnbindDoc(b, docs[j], sel) == UnbindDone(outs[j])
    ensures UnbindAll(b, docs, sel) == AllDone(outs)
  {
    hide UnbindDoc;
    if docs != [] {
      UnbindAllDone(b, docs[1..], sel, outs[1..]);
      assert [outs[0]] + outs[1..] == outs;
    }
  }

  /** The first application that is not done decides. */
  lemma {:induction false} UnbindAllEnds(b: Binding, docs: seq<Json>, sel: Selection, i: nat)
    requires i < |docs| && forall j :: 0 <= j < i ==> UnbindDoc(b, docs[j], sel).UnbindDone?
    requires !UnbindDoc(b, docs[i], sel).UnbindDone?
    ensures UnbindAll(b, docs, sel) == if UnbindDoc(b, docs[i], sel).UnbindPanics? then SomePanics else SomeFailed
  {
    hide UnbindDoc;
    if i > 0 {
      assert docs[1..][i - 1] == docs[i];
      UnbindAllEnds(b, docs[1..], sel, i - 1);
    }
  }

  lemma {:induction false} AsEnvAllIs(b: Binding, docs: seq<Json>, sel: Selection, lenient: bool, outs: seq<Json>)
    requires |docs| == |outs| && forall j :: 0 <= j < |docs| ==>
      AsEnvDoc(b, docs[j], sel, lenient) == Outcome(outs[j], true)
    ensures AsEnvAll(b, docs, sel, lenient) == Some(outs)
  {
    hide AsEnvDoc;
    if docs != [] {
      AsEnvAllIs(b, docs[1..], sel, lenient, outs[1..]);
      assert [outs[0]] + outs[1..] == outs;
    }
  }

  lemma {:induction false} AsEnvAllFails(b: Binding, docs: seq<Json>, sel: Selection, lenient: bool, i: nat)
    requires i < |docs| && !AsEnvDoc(b, docs[i], sel, lenient).ok
    ensures AsEnvAll(b, docs, sel, lenient).None?
  {
    hide AsEnvDoc;
    if i > 0 { AsEnvAllFails(b, docs[1..], sel, lenient, i - 1); }
  }

  lemma {:induction false} AsFilesAllIs(b: Binding, docs: seq<Json>, sel: Selection, lenient: bool, outs: seq<Json>)
    requires |docs| == |outs| && forall j :: 0 <= j < |docs| ==>
      AsFilesDoc(b, docs[j], sel, lenient) == Outcome(outs[j], true)
    ensures AsFilesAll(b, docs, sel, lenient) == Some(outs)
  {
    hide AsFilesDoc;
    if docs != [] {
      AsFilesAllIs(b, docs[1..], sel, lenient, outs[1..]);
      assert [outs[0]] + outs[1..] == outs;
    }
  }

  lemma {:induction false} AsFilesAllFails(b: Binding, docs: seq<Json>, sel: Selection, lenient: bool, i: nat)
    requires i < |docs| && !AsFilesDoc(b, docs[i], sel, lenient).ok
    ensures AsFilesAll(b, docs, sel, lenient).None?
  {
    hide AsFilesDoc;
    if i > 0 { AsFilesAllFails(b, docs[1..], sel, lenient, i - 1); }
  }

  ghost predicate Separate(apps: seq<Application>)
  {
    forall i, j :: 0 <= i < j < |apps| ==> apps[i] != apps[j]
  }

  /** Applications whose working copies are documents under one separated mapping. */
  ghost predicate Workload(apps: seq<Application>, sel: Selection, lenient: bool)
    reads apps
  {
    && Separate(apps) && Separated(sel.mapping)
    && forall i :: 0 <= i < |apps| ==> apps[i].sel == sel && (apps[i].secretPath != "") == lenient && apps[i].doc.Obj?
  }

  ghost function Docs(apps: seq<Application>): (r: seq<Json>)
    reads apps
    ensures |r| == |apps| && forall i :: 0 <= i < |apps| ==> r[i] == apps[i].doc
  {
    if apps == [] then [] else Docs(apps[..|apps| - 1]) + [apps[|apps| - 1].doc]
  }

  datatype Removed = RemovedAll | RemovalFails | RemovalPanics

  /** Unbind's loop over the applications. */
  method UnbindEach(b: Binding, apps: seq<Application>, ghost sel: Selection, ghost lenient: bool) returns (r: Removed)
    requires Workload(apps, sel, lenient)
    modifies apps
    ensures match UnbindAll(b, old(Docs(apps)), sel)
      case SomePanics => r == RemovalPanics
      case SomeFailed => r == RemovalFails
      case AllDone(docs) => r == RemovedAll && Docs(apps) == docs
    ensures r.RemovedAll? ==> forall k :: 0 <= k < |apps| ==> apps[k].copied
  {
    hide UnbindDoc, Separated, Anchored;
    ghost var docs := Docs(apps);
    var i := 0;
    while i < |apps|
      invariant 0 <= i <= |apps|
      invariant forall j :: 0 <= j < i ==> UnbindDoc(b, docs[j], sel) == UnbindDone(apps[j].doc) && apps[j].copied
      invariant forall j :: i <= j < |apps| ==> apps[j].doc == docs[j]
    {
      SeparatedAnchors(apps[i].doc, sel);
      var panics, ok := apps[i].Unbind(b);
      if panics || !ok {
        UnbindAllEnds(b, docs, sel, i);
        return if panics then RemovalPanics else RemovalFails;
      }
      i := i + 1;
    }
    UnbindAllDone(b, docs, sel, Docs(apps));
    return RemovedAll;
  }

  /** BindingsAsEnv's loop over the applications. */
  method BindEachAsEnv(b: Binding, apps: seq<Application>, ghost sel: Selection, ghost lenient: bool) returns (ok: bool)
    requires Workload(apps, sel, lenient)
    modifies apps
    ensures AsEnvAll(b, old(Docs(apps)), sel, lenient) == if ok then Some(Docs(apps)) else None
    ensures ok ==> Workload(apps, sel, lenient)
    ensures ok ==> forall k :: 0 <= k < |apps| ==> apps[k].copied == (old(apps[k].copied) || !b.files || b.env != [])
  {
    hide AsEnvDoc, Separated, Anchored;
    ghost var docs := Docs(apps);
    var i := 0;
    while i < |apps|
      invariant 0 <= i <= |apps|
      invariant forall j :: 0 <= j < i ==>
        AsEnvDoc(b, docs[j], sel, lenient) == Outcome(apps[j].doc, true) && apps[j].doc.Obj?
      invariant forall j :: 0 <= j < i ==> apps[j].copied == (old(apps[j].copied) || !b.files || b.env != [])
      invariant forall j :: i <= j < |apps| ==> apps[j].doc == docs[j] && apps[j].copied == old(apps[j].copied)
    {
      SeparatedAnchors(apps[i].doc, sel);
      AsEnvRoot(b, apps[i].doc, sel, lenient);
      var good := apps[i].BindAsEnv(b);
      if !good {
        AsEnvAllFails(b, docs, sel, lenient, i);
        return false;
      }
      i := i + 1;
    }
    AsEnvAllIs(b, docs, sel, lenient, Docs(apps));
    return true;
  }

  /** BindingsAsFiles's loop over the applications. */
  method BindEachAsFiles(
    b: Binding, apps: seq<Application>, ghost sel: Selection, ghost lenient: bool) returns (ok: bool)
    requires Workload(apps, sel, lenient)
    modifies apps
    ensures AsFilesAll(b, old(Docs(apps)), sel, lenient) == if ok then Some(Docs(apps)) else None
    ensures ok ==> forall k :: 0 <= k < |apps| ==> apps[k].copied == (old(apps[k].copied) || b.files)
  {
    hide AsFilesDoc, Separated, Anchored;
    ghost var docs := Docs(apps);
    var i := 0;
    while i < |apps|
      invariant 0 <= i <= |apps|
      invariant forall j :: 0 <= j < i ==> AsFilesDoc(b, docs[j], sel, lenient) == Outcome(apps[j].doc, true)
      invariant forall j :: 0 <= j < i ==> apps[j].copied == (old(apps[j].copied) || b.files)
      invariant forall j :: i <= j < |apps| ==> apps[j].doc == docs[j] && apps[j].copied == old(apps[j].copied)
    {
      SeparatedAnchors(apps[i].doc, sel);
      var good := apps[i].BindAsFiles(b);
      if !good {
        AsFilesAllFails(b, docs, sel, lenient, i);
        return false;
      }
      i := i + 1;
    }
    AsFilesAllIs(b, docs, sel, lenient, Docs(apps));
    return true;
  }

  // ---- A context ----

  /** The cluster, behind its API. */
  class Store {
    var cluster: Cluster

    constructor (cluster: Cluster)
      ensures this.cluster == cluster
    {
      this.cluster := cluster;
    }
  }

  /** The handlers that collect. */
  predicate Collects(h: Handler)
  {
    h in [PreFlight, ProvisionedService, DirectSecretReference, BindingDefinitions, BindingItems, OwnedResources,
          Mapping, Naming, PreFlightCheck]
  }

  function FlowOf(cfg: Config): (hs: seq<Handler>)
    ensures hs == DEFAULT_FLOW || hs == SPEC_FLOW
  {
    if cfg.spec then SPEC_FLOW else DEFAULT_FLOW
  }

  function SituationOf(cfg: Config, m: BindingObject): Situation
  {
    Situation(UnbindRequested(m), cfg.selector)
  }

  /** A run that is halted while collecting is halted by a handler of its flow,
      with an error, in a way that this handler can. */
  ghost predicate Feasible(cfg: Config, s: Situation, c: Collection)
  {
    c.Halted? ==>
      && Collects(c.at) && c.at in FlowOf(cfg) && Possible(c.at, s, c.conduct) && Handled(RUNNING, c.conduct).err
      && (c.recorded.Some? ==> c.at == PreFlightCheck)
  }

  /** Workloads are stored documents, the mapping in force is separated, a label
      selector that matches nothing makes the lookup fail, and collecting ends
      as its handlers can end. */
  ghost predicate Serviceable(cfg: Config, s: Cluster, m: BindingObject, f: Fate)
  {
    && Feasible(cfg, SituationOf(cfg, m), f.collection)
    && (forall k :: 0 <= k < |s.apps| ==> Plain(s.apps[k]) && s.apps[k].Obj?)
    && (SelectionFor(cfg, Current(s, m)).Some? ==> Separated(SelectionFor(cfg, Current(s, m)).value.mapping))
    && (cfg.selector && s.apps == [] ==> !f.lookup)
  }

  lemma SelectorFinds(cfg: Config, s: Cluster, m: BindingObject, f: Fate)
    requires Serviceable(cfg, s, m, f)
    ensures cfg.selector && s.apps == [] ==> !f.lookup
  {
  }

  lemma NothingToProject(b: Binding, sel: Selection, lenient: bool)
    ensures ProjectAll(b, [], sel, lenient) == Some([])
  {
  }

  method Fetch(docs: seq<Json>, sel: Selection, secretPath: string) returns (all: seq<Application>)
    requires Separated(sel.mapping) && forall k :: 0 <= k < |docs| ==> docs[k].Obj?
    ensures fresh(all) && Workload(all, sel, secretPath != "") && Docs(all) == docs
    ensures forall k :: 0 <= k < |all| ==> all[k].persisted == docs[k] && !all[k].copied
  {
    hide Separated;
    all := [];
    var i := 0;
    while i < |docs|
      invariant 0 <= i <= |docs| && |all| == i && fresh(all) && Separate(all)
      invariant forall j :: 0 <= j < i ==>
        && all[j].sel == sel && all[j].secretPath == secretPath
        && all[j].doc == all[j].persisted == docs[j] && !all[j].copied
    {
      var app := new Application(docs[i], sel, secretPath);
      all := all + [app];
      i := i + 1;
    }
  }

  class Context {
    const cfg: Config
    const store: Store
    const fate: Fate
    const flow: FlowCtrl
    /** The ServiceBinding in memory. */
    var memory: BindingObject
    var applications: Option<seq<Application>>

    constructor (cfg: Config, store: Store, fate: Fate, flow: FlowCtrl, memory: BindingObject)
      ensures this.cfg == cfg && this.store == store && this.fate == fate && this.flow == flow
      ensures this.memory == memory && applications == None
    {
      this.cfg, this.store, this.fate, this.flow := cfg, store, fate, flow;
      this.memory, this.applications := memory, None;
    }

    /** Applications: fetched once, with the mapping in force. */
    method Applications() returns (apps: Option<seq<Application>>)
      requires Serviceable(cfg, store.cluster, memory, fate)
      modifies this`applications
      ensures apps == applications
      ensures old(applications).Some? ==> applications == old(applications)
      ensures old(applications).None? && apps.Some? ==> fresh(apps.value)
      ensures var sel := SelectionFor(cfg, Current(store.cluster, memory));
        old(applications).None? ==>
          if !fate.lookup || sel.None? then apps.None?
          else
            && apps.Some? && Workload(apps.value, sel.value, cfg.lenient) && Docs(apps.value) == store.cluster.apps
            && Fetched(apps.value) && Holding(apps.value)
    {
      hide Separated, Plain, ResourceTemplate, Docs, Walk, Put, CanPut, Norm, Workload, Feasible;
      if applications.Some? || !fate.lookup { return applications; }
      var t := WorkloadResourceTemplate(Current(store.cluster, memory), cfg.gvr.version, cfg.extra);
      if t.None? { return None; }
      var all := Fetch(store.cluster.apps, Selection(t.value, cfg.names), if cfg.lenient then "path" else "");
      applications := Some(all);
      return applications;
    }

    /** The applications are as they were fetched. */
    ghost predicate Fetched(apps: seq<Application>)
      reads store, apps
    {
      Holding(apps) && forall k :: 0 <= k < |apps| ==> !apps[k].copied
    }

    /** The applications stand for the stored workloads, in order. */
    ghost predicate Holding(apps: seq<Application>)
      reads store, apps
    {
      |apps| == |store.cluster.apps| && forall k :: 0 <= k < |apps| ==> apps[k].persisted == store.cluster.apps[k]
    }

    /** The applications are as a pass describes. After an error the working
        copies do not matter. */
    ghost predicate LoadedAs(p: Pass)
      reads this, store, if applications.Some? then applications.value else []
    {
      && (!p.err && !p.loaded ==> p.docs == store.cluster.apps && (applications.None? || applications.value == []))
      && (!p.err && p.loaded ==>
            && applications.Some? && Holding(applications.value) && Docs(applications.value) == p.docs
            && forall k :: 0 <= k < |applications.value| ==> applications.value[k].copied == p.touched)
    }

    /** The context is in the state that a pass describes. */
    ghost predicate InState(p: Pass)
      reads this, flow, store, if applications.Some? then applications.value else []
    {
      flow.retry == p.retry && flow.err == p.err && memory == p.memory && LoadedAs(p)
    }

    /** The same when the handler that ended the run may have panicked. */
    ghost predicate Ends(p: Pass, panics: bool)
      reads this, flow, store, if applications.Some? then applications.value else []
    {
      if panics then memory == p.memory && p.retry && p.err else InState(p)
    }

    // ---- Unbind ----

    method Unbind(ghost s: Situation) returns (panics: bool)
      requires applications.None? && Serviceable(cfg, store.cluster, memory, fate)
      requires flow.Valid() && flow.trace == [] && s.unbind == UnbindRequested(memory)
      modifies this, flow
      ensures flow.Valid() && Reports(Handler.Unbind, s, [], flow.trace, panics)
      ensures s.unbind ==>
        (panics || flow.stop) && Ends(UnbindHandler(cfg, store.cluster, old(memory), fate.lookup), panics)
      ensures !s.unbind ==> !panics && flow.trace == [] && memory == old(memory) && applications.None?
      ensures applications.Some? ==> fresh(applications.value)
    {
      hide Separated, Plain, SelectionFor, UnbindAll, Serviceable, Workload, Docs, Walk, Put, CanPut, Norm, Possible;
      UnbindReports(s);
      panics := false;
      if !(memory.annotation.Some? || memory.deleted) { return; }
      var apps := Applications();
      if apps.None? || apps.value == [] {
        flow.StopProcessing();
      } else if memory.secret == "" {
        flow.StopProcessing();
      } else {
        panics := RemoveFrom(apps.value, SelectionFor(cfg, Current(store.cluster, memory)).value);
      }
    }

    method RemoveFrom(apps: seq<Application>, ghost sel: Selection) returns (panics: bool)
      requires applications == Some(apps) && Workload(apps, sel, cfg.lenient) && Fetched(apps)
      requires Docs(apps) == store.cluster.apps
      requires flow.Valid() && flow.trace == []
      modifies this`memory, flow, apps
      ensures flow.Valid() && Holding(apps)
      ensures match UnbindAll(BindingFor(cfg, old(memory.secret)), store.cluster.apps, sel)
        case SomePanics => panics && flow.trace == [] && memory == old(memory)
        case SomeFailed => !panics && flow.trace == [Stop, Fail] && memory == old(memory)
        case AllDone(docs) =>
          && !panics && flow.trace == [if old(memory.annotation.Some?) then RetryNow(false) else Stop]
          && memory == old(memory).(annotation := None)
          && Docs(apps) == docs && forall k :: 0 <= k < |apps| ==> apps[k].copied
    {
      hide Workload, UnbindAll;
      var removed := UnbindEach(BindingFor(cfg, memory.secret), apps, sel, cfg.lenient);
      panics := false;
      match removed {
        case RemovalPanics => panics := true;
        case RemovalFails =>
          flow.StopProcessing();
          flow.Error();
        case RemovedAll =>
          if memory.annotation.Some? {
            memory := memory.(annotation := None);
            flow.RetryProcessing(false);
          } else {
            flow.StopProcessing();
          }
      }
    }

    // ---- Collecting ----

    /** A handler that collects: it does what the fate of the run says. */
    method Collect(h: Handler, ghost s: Situation) returns (panics: bool)
      requires flow.Valid() && flow.trace == [] && Collects(h)
      requires fate.collection.Halted? && fate.collection.at == h ==> Possible(h, s, fate.collection.conduct)
      modifies flow
      ensures flow.Valid() && (!fate.collection.Halted? || fate.collection.at != h ==> !panics && flow.trace == [])
      ensures fate.collection.Halted? && fate.collection.at == h ==>
        && flow.trace == fate.collection.conduct.calls && panics == fate.collection.conduct.panics
        && Reports(h, s, [], flow.trace, panics)
    {
      hide Possible;
      panics := false;
      if fate.collection.Halted? && fate.collection.at == h {
        var calls := fate.collection.conduct.calls;
        panics := fate.collection.conduct.panics;
        var i := 0;
        while i < |calls|
          invariant 0 <= i <= |calls| && flow.Valid() && flow.trace == calls[..i]
        {
          match calls[i] {
            case RetryNow(failed) => flow.RetryProcessing(failed);
            case RetryLater(failed, delay) => flow.RetryProcessingWithDelay(failed, delay);
            case Fail => flow.Error();
            case Stop => flow.StopProcessing();
          }
          i := i + 1;
        }
        assert calls[..i] == calls && flow.trace[0..] == flow.trace;
      }
    }

    /** A handler before PreFlightCheck halts the run, or leaves it alone. */
    method CollectBefore(h: Handler, ghost s: Situation) returns (panics: bool)
      requires flow.Valid() && flow.trace == [] && Collects(h) && h != Handler.PreFlightCheck
      requires Serviceable(cfg, store.cluster, memory, fate) && s == SituationOf(cfg, memory) && !s.unbind
      requires applications.None?
      modifies flow
      ensures flow.Valid() && Reports(h, s, [], flow.trace, panics)
      ensures fate.collection.Halted? && fate.collection.at == h ==>
        (panics || flow.stop) && Ends(ProjectHandlers(cfg, store.cluster, memory, fate), panics)
      ensures !(fate.collection.Halted? && fate.collection.at == h) ==> !panics && flow.trace == []
    {
      hide SelectionFor, ProjectAll, Possible, Separated, Plain, Issues;
      ghost var halts := fate.collection.Halted? && fate.collection.at == h;
      IdleReports(h, s);
      panics := Collect(h, s);
      if halts { HaltEnds(h, s, fate.collection.conduct); }
    }

    /** PreFlightCheck. A secret that could not be persisted does not stop the run. */
    method PreFlightCheck(ghost s: Situation) returns (panics: bool)
      requires flow.Valid() && flow.trace == [] && applications.None?
      requires Serviceable(cfg, store.cluster, memory, fate) && s == SituationOf(cfg, memory) && !s.unbind
      requires fate.collection.Halted? ==> fate.collection.at == Handler.PreFlightCheck
      modifies this, flow
      ensures flow.Valid() && Reports(Handler.PreFlightCheck, s, [], flow.trace, panics)
      ensures panics || flow.stop ==> Ends(ProjectHandlers(cfg, store.cluster, old(memory), fate), panics)
      ensures !panics && !flow.stop ==> flow.trace == [] && Checked(old(memory))
      ensures applications.Some? ==> fresh(applications.value)
    {
      hide SelectionFor, ProjectAll, Possible, Separated, Plain, Workload, Docs;
      panics := false;
      CheckReports(s);
      match fate.collection {
        case Halted(_, conduct, recorded) =>
          if recorded.Some? { memory := memory.(secret := recorded.value); }
          panics := Collect(Handler.PreFlightCheck, s);
          HaltEnds(Handler.PreFlightCheck, s, conduct);
        case Collected(secret, persisted) =>
          if persisted { Persisted(secret, s); }
      }
    }

    method Persisted(secret: string, ghost s: Situation)
      requires flow.Valid() && flow.trace == [] && applications.None? && fate.collection == Collected(secret, true)
      requires Serviceable(cfg, store.cluster, memory, fate) && s == SituationOf(cfg, memory) && !s.unbind
      modifies this, flow
      ensures flow.Valid()
      ensures flow.trace == [] || flow.trace == [RetryNow(true)] || flow.trace == [Stop]
      ensures flow.stop ==> InState(ProjectHandlers(cfg, store.cluster, old(memory), fate))
      ensures !flow.stop ==> flow.trace == [] && Checked(old(memory))
      ensures applications.Some? ==> fresh(applications.value)
    {
      hide SelectionFor, ProjectAll, Possible, Separated, Plain, Workload, Docs, Serviceable;
      SelectorFinds(cfg, store.cluster, memory, fate);
      ghost var sel := SelectionFor(cfg, Current(store.cluster, memory));
      var apps := Applications();
      if secret != "" { memory := memory.(secret := secret); }
      if apps.None? {
        flow.RetryProcessing(true);
      } else if apps.value == [] {
        NothingToProject(BindingFor(cfg, secret), sel.value, cfg.lenient);
        flow.StopProcessing();
      }
    }

    // ---- Projecting ----

    /** The binding once its secret is recorded. */
    function Recorded(was: BindingObject): BindingObject
    {
      if fate.collection.Collected? && fate.collection.persisted && fate.collection.secret != ""
      then was.(secret := fate.collection.secret) else was
    }

    /** The selection, if applications can be found. */
    ghost function Sought(was: BindingObject): Option<Selection>
      reads store
    {
      if fate.lookup then SelectionFor(cfg, Current(store.cluster, was)) else None
    }

    /** The applications, if they were fetched, have these documents. */
    ghost predicate Working(sel: Selection, docs: seq<Json>, copied: bool)
      reads this, store, if applications.Some? then applications.value else []
    {
      applications.Some? ==>
        && Workload(applications.value, sel, cfg.lenient)
        && Docs(applications.value) == docs
        && Holding(applications.value)
        && forall k :: 0 <= k < |applications.value| ==> applications.value[k].copied == copied
    }

    /** A secret was collected. If it was persisted, applications were found;
        otherwise nobody may have looked for them yet. */
    ghost predicate HasSecret(was: BindingObject)
      reads this, store
    {
      && fate.collection.Collected? && memory == Recorded(was)
      && (fate.collection.persisted ==> applications.Some?)
      && (Sought(was).None? ==> applications.None?)
    }

    ghost predicate Checked(was: BindingObject)
      reads this, store, if applications.Some? then applications.value else []
    {
      HasSecret(was) && (Sought(was).Some? ==> Working(Sought(was).value, store.cluster.apps, false))
    }

    /** BindingsAsEnv is done. */
    ghost predicate EnvDone(was: BindingObject)
      reads this, store, if applications.Some? then applications.value else []
    {
      HasSecret(was) &&
      (Sought(was).Some? ==>
         var b := BindingFor(cfg, fate.collection.secret);
         var docs := AsEnvAll(b, store.cluster.apps, Sought(was).value, cfg.lenient);
         && docs.Some? && Working(Sought(was).value, docs.value, !cfg.files || cfg.env != [])
         && (applications.None? ==> cfg.files && cfg.env == []))
    }

    /** BindingsAsFiles is done. */
    ghost predicate FilesDone(was: BindingObject)
      reads this, store, if applications.Some? then applications.value else []
    {
      HasSecret(was) &&
      (Sought(was).Some? ==>
         var b := BindingFor(cfg, fate.collection.secret);
         var docs := ProjectAll(b, store.cluster.apps, Sought(was).value, cfg.lenient);
         && docs.Some? && applications.Some? && Holding(applications.value) && Docs(applications.value) == docs.value
         && forall k :: 0 <= k < |applications.value| ==> applications.value[k].copied)
    }

    /** What projection makes of the workloads that can be found. */
    ghost function EnvDocs(was: BindingObject): Option<seq<Json>>
      requires fate.collection.Collected? && Sought(was).Some?
      reads store
    {
      AsEnvAll(BindingFor(cfg, fate.collection.secret), store.cluster.apps, Sought(was).value, cfg.lenient)
    }

    ghost predicate Fails(was: BindingObject)
      reads store
    {
      && fate.collection.Collected? && Sought(was).Some?
      && ProjectAll(BindingFor(cfg, fate.collection.secret), store.cluster.apps, Sought(was).value, cfg.lenient).None?
    }

    /** BindingsAsEnv without its report. */
    method EnvAll(ghost was: BindingObject) returns (ok: bool)
      requires Checked(was) && Serviceable(cfg, store.cluster, was, fate)
      modifies this`applications, if applications.Some? then applications.value else []
      ensures if ok then EnvDone(was) else Fails(was)
      ensures old(applications).Some? ==> applications == old(applications)
      ensures old(applications).None? && applications.Some? ==> fresh(applications.value)
    {
      hide SelectionFor, AsEnvAll, AsFilesAll, Separated, Plain, Workload, Docs, Serviceable, UnbindAll, WriteApps,
        Norm, Walk, Put, CanPut, Feasible;
      ok := true;
      var b := BindingFor(cfg, fate.collection.secret);
      if Sought(was).Some? { AsEnvIdle(b, store.cluster.apps, Sought(was).value, cfg.lenient); }
      if cfg.files && cfg.env == [] { return; }
      ServiceableSame(cfg, store.cluster, was, fate, store.cluster, memory);
      var apps := Applications();
      if apps.Some? { ok := BindEachAsEnv(b, apps.value, Sought(was).value, cfg.lenient); }
    }

    /** BindingsAsFiles without its report. */
    method FilesAll(ghost was: BindingObject) returns (ok: bool)
      requires EnvDone(was) && Serviceable(cfg, store.cluster, was, fate)
      modifies this`applications, if applications.Some? then applications.value else []
      ensures if ok then FilesDone(was) else Fails(was)
      ensures old(applications).Some? ==> applications == old(applications)
      ensures old(applications).None? && applications.Some? ==> fresh(applications.value)
    {
      hide SelectionFor, AsEnvAll, AsFilesAll, Separated, Plain, Workload, Docs, Serviceable, UnbindAll, WriteApps,
        Norm, Walk, Put, CanPut, Feasible;
      ok := true;
      var b := BindingFor(cfg, fate.collection.secret);
      if Sought(was).Some? {
        AsEnvIdle(b, store.cluster.apps, Sought(was).value, cfg.lenient);
        AsFilesIdle(b, EnvDocs(was).value, Sought(was).value, cfg.lenient);
      }
      if !cfg.files { return; }
      ServiceableSame(cfg, store.cluster, was, fate, store.cluster, memory);
      var apps := Applications();
      if apps.Some? { ok := BindEachAsFiles(b, apps.value, Sought(was).value, cfg.lenient); }
    }

    /** BindingsAsEnv. */
    method BindingsAsEnv(ghost s: Situation, ghost was: BindingObject)
      requires Checked(was) && flow.Valid() && flow.trace == [] && Serviceable(cfg, store.cluster, was, fate)
      modifies this`applications, flow, if applications.Some? then applications.value else []
      ensures flow.Valid() && Reports(Handler.BindingsAsEnv, s, [], flow.trace, false) && memory == old(memory)
      ensures flow.stop ==> InState(ProjectHandlers(cfg, store.cluster, was, fate))
      ensures !flow.stop ==> flow.trace == [] && EnvDone(was)
      ensures old(applications).Some? ==> applications == old(applications)
      ensures old(applications).None? && applications.Some? ==> fresh(applications.value)
    {
      hide SelectionFor, ProjectAll, AsEnvAll, Workload, Docs, Serviceable, Possible, Reports;
      ProjectReports(s);
      var ok := EnvAll(was);
      if !ok { StopWithError(); }
    }

    method StopWithError()
      requires flow.Valid() && flow.trace == []
      modifies flow
      ensures flow.Valid() && flow.trace == [Stop, Fail] && flow.stop && flow.err && !flow.retry
    {
      flow.StopProcessing();
      flow.Error();
      assert flow.trace == [Stop, Fail];
    }

    /** BindingsAsFiles. */
    method BindingsAsFiles(ghost s: Situation, ghost was: BindingObject)
      requires EnvDone(was) && flow.Valid() && flow.trace == [] && Serviceable(cfg, store.cluster, was, fate)
      modifies this`applications, flow, if applications.Some? then applications.value else []
      ensures flow.Valid() && Reports(Handler.BindingsAsFiles, s, [], flow.trace, false) && memory == old(memory)
      ensures flow.stop ==> InState(ProjectHandlers(cfg, store.cluster, was, fate))
      ensures !flow.stop ==> flow.trace == [] && FilesDone(was)
      ensures old(applications).Some? ==> applications == old(applications)
      ensures old(applications).None? && applications.Some? ==> fresh(applications.value)
    {
      hide SelectionFor, ProjectAll, AsEnvAll, Workload, Docs, Serviceable, Possible, Reports;
      ProjectReports(s);
      var ok := FilesAll(was);
      if !ok { StopWithError(); }
    }

    /** PostFlightCheck. */
    method PostFlightCheck(ghost s: Situation, ghost was: BindingObject)
      requires FilesDone(was) && flow.Valid() && flow.trace == [] && s.selector == cfg.selector
      modifies flow
      ensures flow.Valid() && Reports(Handler.PostFlightCheck, s, [], flow.trace, false) && !flow.stop
      ensures InState(ProjectHandlers(cfg, store.cluster, was, fate))
    {
      hide SelectionFor, ProjectAll, Docs;
      if cfg.selector { flow.RetryProcessingWithDelay(false, 1); }
      assert flow.trace[0..] == flow.trace;
    }

    // ---- Any handler ----

    /** The state between two handlers of a run that goes on. */
    ghost predicate Before(hs: seq<Handler>, i: nat, was: BindingObject)
      requires i <= |hs|
      reads this, flow, store, if applications.Some? then applications.value else []
    {
      var k := StageAt(hs, i);
      && flow.Valid() && (i < |hs| ==> flow.trace == []) && (k > 0 ==> !UnbindRequested(was))
      && (k <= 2 ==> memory == was && applications.None? && (fate.collection.Halted? ==> fate.collection.at in hs[i..]))
      && (3 <= k <= 4 ==> Checked(was))
      && (k == 5 ==> EnvDone(was))
      && (k == 6 ==> FilesDone(was))
      && (k == 7 ==> InState(Handlers(cfg, store.cluster, was, fate)))
    }

    method Handle(hs: seq<Handler>, i: nat, ghost was: BindingObject) returns (panics: bool)
      requires hs == FlowOf(cfg) && i < |hs| && Before(hs, i, was) && Serviceable(cfg, store.cluster, was, fate)
      modifies this, flow, if applications.Some? then applications.value else []
      ensures flow.Valid() && Reports(hs[i], SituationOf(cfg, was), [], flow.trace, panics)
      ensures panics || flow.stop ==> Ends(Handlers(cfg, store.cluster, was, fate), panics)
      ensures !panics && !flow.stop ==> Before(hs, i + 1, was)
      ensures old(applications).Some? ==> applications == old(applications)
      ensures old(applications).None? && applications.Some? ==> fresh(applications.value)
    {
      hide SelectionFor, UnbindHandler, ProjectHandlers, Separated, Plain, Workload, Docs, Serviceable, Possible,
        Reports, Checked, EnvDone, FilesDone, LoadedAs;
      ghost var s := SituationOf(cfg, was);
      NextStage(cfg, i);
      panics := false;
      match Stage(hs[i]) {
        case 0 =>
          NotYet(cfg, store.cluster, was, fate, i);
          panics := Unbind(s);
        case 1 =>
          NotYet(cfg, store.cluster, was, fate, i);
          panics := CollectBefore(hs[i], s);
        case 2 =>
          NotYet(cfg, store.cluster, was, fate, i);
          panics := PreFlightCheck(s);
        case 3 => IdleReports(hs[i], s);
        case 4 => BindingsAsEnv(s, was);
        case 5 => BindingsAsFiles(s, was);
        case _ => PostFlightCheck(s, was);
      }
    }

    /** Writing applications back in turn, up to the first refusal. */
    method WriteBack(apps: seq<Application>, ghost touched: bool) returns (ok: bool)
      requires Holding(apps) && forall k :: 0 <= k < |apps| ==> apps[k].copied == touched && Plain(apps[k].persisted)
      modifies store
      ensures var w := WriteApps(old(store.cluster.apps), Docs(apps), touched, fate.refused, 0);
        store.cluster == old(store.cluster).(apps := w.0) && ok == w.1
    {
      hide Norm, WriteApps, Resumed, Docs, Walk, Put, CanPut;
      ghost var stored, docs := store.cluster.apps, Docs(apps);
      ghost var w := WriteApps(stored, docs, touched, fate.refused, 0);
      var i := 0;
      ResumedStart(stored, docs, touched, fate.refused);
      while i < |apps|
        invariant 0 <= i <= |apps| && |store.cluster.apps| == |apps|
        invariant store.cluster == old(store.cluster).(apps := store.cluster.apps)
        invariant forall k :: i <= k < |apps| ==> store.cluster.apps[k] == stored[k]
        invariant w == Resumed(store.cluster.apps, stored, docs, touched, fate.refused, i)
      {
        assert stored[i] == apps[i].persisted && docs[i] == apps[i].doc;
        if apps[i].IsUpdated() {
          if i in fate.refused {
            ResumedStop(store.cluster.apps, stored, docs, touched, fate.refused, i);
            return false;
          }
          ResumedStep(store.cluster.apps, stored, docs, touched, fate.refused, i, Norm(apps[i].doc));
          store.cluster := store.cluster.(apps := store.cluster.apps[i := Norm(apps[i].doc)]);
        } else {
          ResumedStep(store.cluster.apps, stored, docs, touched, fate.refused, i, stored[i]);
          assert store.cluster.apps == store.cluster.apps[i := stored[i]];
        }
        i := i + 1;
      }
      ResumedStart(stored, docs, touched, fate.refused);
      ResumedEnd(store.cluster.apps, stored, docs, touched, fate.refused);
      return true;
    }
  
    /** persistBinding: the status, then the metadata. */
    method PersistBinding() returns (ok: bool)
      requires store.cluster.binding.Some?
      modifies store
      ensures (store.cluster, ok) == Protocol.PersistBinding(old(store.cluster), memory, fate)
    {
      if !fate.statusWrite { return false; }
      store.cluster := store.cluster.(
        binding := Some(store.cluster.binding.value.(secret := memory.secret, ready := memory.ready)));
      if !fate.metaWrite { return false; }
      store.cluster := store.cluster.(
        binding := Some(store.cluster.binding.value.(
          annotation := memory.annotation, finalizers := memory.finalizers)));
      return true;
    }

    /** Close. */
    method Close(ghost p: Pass) returns (ok: bool)
      requires InState(p) && store.cluster.binding.Some? && |p.docs| == |store.cluster.apps|
      requires forall k :: 0 <= k < |store.cluster.apps| ==> Plain(store.cluster.apps[k])
      modifies this`memory, store
      ensures (store.cluster, ok) == Protocol.Close(old(store.cluster), p, fate)
      ensures memory.annotation == p.memory.annotation && memory.finalizers == p.memory.finalizers
    {
      hide Norm, WriteApps, Docs, Walk, Put, CanPut, Plain;
      if flow.err {
        memory := memory.(ready := false);
        ok := PersistBinding();
        return;
      }
      if applications.Some? && applications.value != [] {
        ok := WriteBack(applications.value, p.touched);
        if !ok {
          memory := memory.(ready := false);
          var _ := PersistBinding();
          return;
        }
      } else {
        NothingWritten(p.touched, fate.refused);
        assert p.docs == store.cluster.apps || p.docs == [];
      }
      memory := memory.(ready := true);
      ok := PersistBinding();
    }
  }

  lemma NothingWritten(touched: bool, refused: set<nat>)
    ensures WriteApps([], [], touched, refused, 0) == ([], true)
  {
  }

  /** What a write-back that has come to application `i` will have done. */
  ghost function Resumed(
    now: seq<Json>, stored: seq<Json>, docs: seq<Json>, touched: bool, refused: set<nat>, i: nat): (seq<Json>, bool)
    requires |now| == |stored| == |docs| && i <= |docs|
  {
    var w := WriteApps(stored[i..], docs[i..], touched, refused, i);
    (now[..i] + w.0, w.1)
  }

  lemma ResumedStart(stored: seq<Json>, docs: seq<Json>, touched: bool, refused: set<nat>)
    requires |stored| == |docs|
    ensures Resumed(stored, stored, docs, touched, refused, 0) == WriteApps(stored, docs, touched, refused, 0)
  {
    assert stored[0..] == stored && docs[0..] == docs && stored[..0] == [];
    var w := WriteApps(stored, docs, touched, refused, 0);
    assert [] + w.0 == w.0;
  }

  lemma ResumedStop(now: seq<Json>, stored: seq<Json>, docs: seq<Json>, touched: bool, refused: set<nat>, i: nat)
    requires |now| == |stored| == |docs| && i < |docs| && forall k :: i <= k < |docs| ==> now[k] == stored[k]
    requires (!touched || docs[i] != stored[i]) && i in refused
    ensures Resumed(now, stored, docs, touched, refused, i) == (now, false)
  {
    hide Norm;
    assert now == now[..i] + stored[i..];
  }

  lemma ResumedEnd(now: seq<Json>, stored: seq<Json>, docs: seq<Json>, touched: bool, refused: set<nat>)
    requires |now| == |stored| == |docs|
    ensures Resumed(now, stored, docs, touched, refused, |docs|) == (now, true)
  {
    assert now[..|docs|] + [] == now;
  }

  lemma ResumedStep(
    now: seq<Json>, stored: seq<Json>, docs: seq<Json>, touched: bool, refused: set<nat>, i: nat, x: Json)
    requires |now| == |stored| == |docs| && i < |docs|
    requires !((!touched || docs[i] != stored[i]) && i in refused)
    requires x == if docs[i] != stored[i] then Norm(docs[i]) else stored[i]
    ensures Resumed(now, stored, docs, touched, refused, i) ==
      Resumed(now[i := x], stored, docs, touched, refused, i + 1)
  {
    hide Norm;
    assert stored[i..][1..] == stored[i + 1..] && docs[i..][1..] == docs[i + 1..];
    assert now[i := x][..i + 1] == now[..i] + [x];
    var rest := WriteApps(stored[i + 1..], docs[i + 1..], touched, refused, i + 1).0;
    assert now[..i] + ([x] + rest) == (now[..i] + [x]) + rest;
  }

  // ---- The handlers of a run ----

  /** Unbind, collecting, PreFlightCheck, InjectSecretRef, BindingsAsEnv, BindingsAsFiles, PostFlightCheck. */
  function Stage(h: Handler): nat
  {
    match h
    case Unbind => 0
    case PreFlightCheck => 2
    case InjectSecretRef => 3
    case BindingsAsEnv => 4
    case BindingsAsFiles => 5
    case PostFlightCheck => 6
    case _ => 1
  }

  function StageAt(hs: seq<Handler>, i: nat): nat
    requires i <= |hs|
  {
    if i < |hs| then Stage(hs[i]) else 7
  }

  /** Both flows go through the stages in order. */
  predicate InTurn(hs: seq<Handler>, i: nat)
    requires i < |hs|
  {
    var k, n := Stage(hs[i]), StageAt(hs, i + 1);
    && (k == 0 ==> n == 1 && i == 0) && (k == 1 ==> 1 <= n <= 2) && (k == 2 ==> 3 <= n <= 4) && (k >= 3 ==> n == k + 1)
    && (Collects(hs[i]) <==> 1 <= k <= 2)
    && (k >= 2 ==> forall j :: i < j < |hs| ==> !Collects(hs[j]))
  }

  lemma DefaultInOrder(i: nat)
    requires i < |DEFAULT_FLOW|
    ensures InTurn(DEFAULT_FLOW, i)
  {
  }

  lemma SpecInOrder(i: nat)
    requires i < |SPEC_FLOW|
    ensures InTurn(SPEC_FLOW, i)
  {
  }

  lemma NextStage(cfg: Config, i: nat)
    requires i < |FlowOf(cfg)|
    ensures InTurn(FlowOf(cfg), i) && !Collects(Unbind)
  {
    hide InTurn;
    if cfg.spec { SpecInOrder(i); } else { DefaultInOrder(i); }
  }

  /** A handler that halts the run is the next one, or comes after it. */
  lemma NotYet(cfg: Config, s: Cluster, m: BindingObject, f: Fate, i: nat)
    requires Serviceable(cfg, s, m, f) && i < |FlowOf(cfg)|
    requires f.collection.Halted? ==> f.collection.at in FlowOf(cfg)[i..]
    ensures f.collection.Halted? && f.collection.at != FlowOf(cfg)[i] ==> f.collection.at in FlowOf(cfg)[i + 1..]
    ensures f.collection.Halted? && FlowOf(cfg)[i] == Unbind ==> f.collection.at != Unbind
    ensures f.collection.Halted? && FlowOf(cfg)[i] == PreFlightCheck ==> f.collection.at == PreFlightCheck
  {
    hide SelectionFor, Separated, Plain, Possible, Collects, InTurn;
    NextStage(cfg, i);
    if f.collection.Halted? { Later(FlowOf(cfg), i, f.collection.at); }
  }

  lemma Later(hs: seq<Handler>, i: nat, h: Handler)
    requires i < |hs| && h in hs[i..] && Collects(h) && InTurn(hs, i)
    ensures h != hs[i] ==> h in hs[i + 1..]
    ensures hs[i] == PreFlightCheck ==> h == PreFlightCheck
    ensures hs[i] == Unbind ==> h != Unbind
  {
    var j :| 0 <= j < |hs[i..]| && hs[i..][j] == h;
    assert hs[i..][j] == hs[i + j];
    if j > 0 { assert hs[i + 1..][j - 1] == hs[i + j]; }
  }

  lemma UnbindReports(s: Situation)
    ensures !s.unbind ==> Reports(Unbind, s, [], [], false)
    ensures s.unbind ==>
      && Reports(Unbind, s, [], [], true) && Reports(Unbind, s, [], [Stop], false)
      && Reports(Unbind, s, [], [Stop, Fail], false) && Reports(Unbind, s, [], [RetryNow(false)], false)
  {
    var none: seq<Call> := [];
    assert none[0..] == none && [Stop][0..] == [Stop] && [Stop, Fail][0..] == [Stop, Fail];
    assert [RetryNow(false)][0..] == [RetryNow(false)];
    if s.unbind { assert Issues(Unbind, s, [Stop]) && [] <= [Stop]; }
  }

  lemma IdleReports(h: Handler, s: Situation)
    requires Collects(h) || h == InjectSecretRef
    ensures Reports(h, s, [], [], false)
  {
    var none: seq<Call> := [];
    assert none[0..] == none;
  }

  lemma CheckReports(s: Situation)
    ensures Reports(PreFlightCheck, s, [], [], false) && Reports(PreFlightCheck, s, [], [RetryNow(true)], false)
    ensures Reports(PreFlightCheck, s, [], [Stop], false)
  {
    var none: seq<Call> := [];
    assert none[0..] == none && [Stop][0..] == [Stop] && [RetryNow(true)][0..] == [RetryNow(true)];
  }

  lemma ProjectReports(s: Situation)
    ensures Reports(BindingsAsEnv, s, [], [], false) && Reports(BindingsAsEnv, s, [], [Stop, Fail], false)
    ensures Reports(BindingsAsFiles, s, [], [], false) && Reports(BindingsAsFiles, s, [], [Stop, Fail], false)
  {
    var none: seq<Call> := [];
    assert none[0..] == none && [Stop, Fail][0..] == [Stop, Fail];
  }

  /** A halting handler stops the run. */
  lemma HaltEnds(h: Handler, s: Situation, c: Conduct)
    requires Possible(h, s, c) && Handled(RUNNING, c).err
    ensures c.panics ==> Handled(RUNNING, c).retry
    ensures !c.panics ==> Handled(RUNNING, c) == Performed(RUNNING, c.calls) && Performed(RUNNING, c.calls).stop
  {
    hide Possible;
    ErrorStops(h, s, c, RUNNING);
  }

  lemma {:induction false} AsEnvIdle(b: Binding, docs: seq<Json>, sel: Selection, lenient: bool)
    ensures b.files && b.env == [] ==> AsEnvAll(b, docs, sel, lenient) == Some(docs)
  {
    if docs != [] {
      AsEnvIdle(b, docs[1..], sel, lenient);
      assert [docs[0]] + docs[1..] == docs;
    }
  }

  lemma {:induction false} AsFilesIdle(b: Binding, docs: seq<Json>, sel: Selection, lenient: bool)
    ensures !b.files ==> AsFilesAll(b, docs, sel, lenient) == Some(docs)
  {
    if docs != [] {
      AsFilesIdle(b, docs[1..], sel, lenient);
      assert [docs[0]] + docs[1..] == docs;
    }
  }

  /** What a handler that does not run would have done, had it done nothing. */
  function IdleConduct(h: Handler, s: Situation): Conduct
  {
    var calls := if h == Unbind && s.unbind then [Stop]
                 else if h == PostFlightCheck && s.selector then [RetryLater(false, 1)]
                 else [];
    Conduct(calls, false)
  }

  lemma IdlePossible(h: Handler, s: Situation)
    ensures Possible(h, s, IdleConduct(h, s))
  {
  }

  /** Handlers that did not run, with idle conducts, do not change how far the run went. */
  ghost function Padded(cs: seq<Conduct>, hs: seq<Handler>, s: Situation): seq<Conduct>
    requires |cs| <= |hs|
  {
    seq(|hs|, i requires 0 <= i < |hs| => if i < |cs| then cs[i] else IdleConduct(hs[i], s))
  }

  lemma {:induction false} PaddedStatus(cs: seq<Conduct>, hs: seq<Handler>, s: Situation, k: nat)
    requires k <= |cs| <= |hs|
    ensures StatusAfter(Padded(cs, hs, s), k) == StatusAfter(cs, k)
    decreases k
  {
    if k > 0 { PaddedStatus(cs, hs, s, k - 1); }
  }

  /** One more handler on a run that had reported nothing. */
  lemma {:induction false} StatusMore(cs: seq<Conduct>, c: Conduct, k: nat)
    requires k <= |cs|
    ensures StatusAfter(cs + [c], k) == StatusAfter(cs, k)
    ensures StatusAfter(cs + [c], |cs| + 1) == Handled(StatusAfter(cs + [c], |cs|), c)
    decreases k
  {
    if k > 0 { StatusMore(cs, c, k - 1); }
  }

  /** The handlers ran as far as the first stop. */
  ghost predicate RanTo(hs: seq<Handler>, s: Situation, cs: seq<Conduct>, status: Status)
  {
    && |cs| <= |hs|
    && (forall i :: 0 <= i < |cs| ==> Possible(hs[i], s, cs[i]))
    && (forall k :: 0 <= k < |cs| ==> StatusAfter(cs, k) == RUNNING)
    && StatusAfter(cs, |cs|) == status
  }

  lemma RanMore(hs: seq<Handler>, s: Situation, cs: seq<Conduct>, c: Conduct)
    requires |cs| < |hs| && RanTo(hs, s, cs, RUNNING) && Possible(hs[|cs|], s, c)
    ensures RanTo(hs, s, cs + [c], Handled(RUNNING, c))
  {
    hide Possible;
    forall k | 0 <= k <= |cs| ensures StatusAfter(cs + [c], k) == RUNNING { StatusMore(cs, c, k); }
    StatusMore(cs, c, 0);
  }

  lemma RanPadded(hs: seq<Handler>, s: Situation, cs: seq<Conduct>, status: Status)
    requires RanTo(hs, s, cs, status) && (status.stop || |cs| == |hs|)
    ensures Conducted(hs, s, Padded(cs, hs, s)) && RunsTo(Padded(cs, hs, s), |cs|)
    ensures StatusAfter(Padded(cs, hs, s), |cs|) == status
  {
    hide Possible;
    var all := Padded(cs, hs, s);
    forall i | 0 <= i < |hs| ensures Possible(hs[i], s, all[i]) { IdlePossible(hs[i], s); }
    forall k | 0 <= k <= |cs| ensures StatusAfter(all, k) == StatusAfter(cs, k) { PaddedStatus(cs, hs, s, k); }
  }

  // ---- Reconcile ----

  lemma ServiceableSame(cfg: Config, s: Cluster, m: BindingObject, f: Fate, t: Cluster, n: BindingObject)
    requires Serviceable(cfg, s, m, f) && t.apps == s.apps && t.mapping == s.mapping
    requires n.annotation == m.annotation && n.deleted == m.deleted
    ensures Serviceable(cfg, t, n, f)
  {
  }

  /** invokeHandler: a panic becomes a retry with an error. */
  method InvokeHandler(ctx: Context, hs: seq<Handler>, i: nat, ghost was: BindingObject) returns (ghost c: Conduct)
    requires hs == FlowOf(ctx.cfg) && i < |hs| && ctx.Before(hs, i, was)
    requires Serviceable(ctx.cfg, ctx.store.cluster, was, ctx.fate)
    modifies ctx, ctx.flow, if ctx.applications.Some? then ctx.applications.value else []
    ensures Possible(hs[i], SituationOf(ctx.cfg, was), c) && ctx.flow.FlowStatus() == Handled(RUNNING, c)
    ensures ctx.flow.stop ==> ctx.InState(Handlers(ctx.cfg, ctx.store.cluster, was, ctx.fate))
    ensures !ctx.flow.stop ==> ctx.Before(hs, i + 1, was)
    ensures old(ctx.applications).Some? ==> ctx.applications == old(ctx.applications)
    ensures old(ctx.applications).None? && ctx.applications.Some? ==> fresh(ctx.applications.value)
  {
    hide Serviceable, Handlers, Possible;
    var panics := ctx.Handle(hs, i, was);
    c := Conduct(ctx.flow.trace, panics);
    assert ctx.flow.trace[0..] == ctx.flow.trace;
    if panics { ctx.flow.RetryProcessing(true); }
  }

  /** The loop over the handlers, up to the first stop. */
  method RunHandlers(ctx: Context, ghost was: BindingObject) returns (ghost cs: seq<Conduct>, ghost ran: nat)
    requires ctx.applications.None? && ctx.Before(FlowOf(ctx.cfg), 0, was)
    requires Serviceable(ctx.cfg, ctx.store.cluster, was, ctx.fate)
    modifies ctx, ctx.flow
    ensures ctx.InState(Handlers(ctx.cfg, ctx.store.cluster, was, ctx.fate))
    ensures ctx.applications.Some? ==> fresh(ctx.applications.value)
    ensures Conducted(FlowOf(ctx.cfg), SituationOf(ctx.cfg, was), cs) && RunsTo(cs, ran)
    ensures StatusAfter(cs, ran) == ctx.flow.FlowStatus()
  {
    hide Handlers, Feasible, StatusAfter, Possible, RanTo, Conducted, RunsTo, Serviceable, Context.InState, Stage;
    var hs := FlowOf(ctx.cfg);
    ghost var s := SituationOf(ctx.cfg, was);
    cs := [];
    var i := 0;
    Begin(ctx.cfg, ctx.store.cluster, was, ctx.fate);
    while i < |hs| && !ctx.flow.stop
      invariant 0 <= i == |cs| <= |hs| && RanTo(hs, s, cs, ctx.flow.FlowStatus())
      invariant ctx.applications.Some? ==> fresh(ctx.applications.value)
      invariant ctx.flow.stop ==> ctx.InState(Handlers(ctx.cfg, ctx.store.cluster, was, ctx.fate))
      invariant !ctx.flow.stop ==> ctx.Before(hs, i, was)
      invariant !ctx.flow.stop && i < |hs| ==> ctx.flow.FlowStatus() == RUNNING
      decreases |hs| - i
    {
      ghost var c := InvokeHandler(ctx, hs, i, was);
      RanMore(hs, s, cs, c);
      cs := cs + [c];
      i := i + 1;
    }
    RanPadded(hs, s, cs, ctx.flow.FlowStatus());
    ran := |cs|;
    cs := Padded(cs, hs, s);
  }

  /** Process: the handlers of the flow up to the first stop, then Close. What
      the handlers reported is possible for them, so that RunEnds says how the
      run ends. */
  method Process(cfg: Config, store: Store, f: Fate, binding: BindingObject)
    returns (retry: bool, err: bool, memory: BindingObject, ghost cs: seq<Conduct>, ghost ran: nat)
    requires store.cluster.binding == Some(binding) && Serviceable(cfg, store.cluster, binding, f)
    modifies store
    ensures Conducted(FlowOf(cfg), SituationOf(cfg, binding), cs) && RunsTo(cs, ran)
    ensures var r := Processed(cfg, old(store.cluster), f);
      && store.cluster == r.0 && retry == r.1.retry && err == r.1.err
      && memory.annotation == r.1.memory.annotation && memory.finalizers == r.1.memory.finalizers
    ensures !err ==> retry == StatusAfter(cs, ran).retry && !StatusAfter(cs, ran).err
    ensures !err && retry ==> UnbindRequested(binding) || cfg.selector
    ensures UnbindRequested(binding) ==> ran == 1
  {
    hide Norm, WriteApps, Docs, Walk, Put, CanPut, Plain, Separated, SelectionFor, Handlers, Protocol.Close,
      Feasible, StatusAfter, Possible, Conducted, RunsTo;
    var flow := new FlowCtrl();
    var ctx := new Context(cfg, store, f, flow, binding);
    ghost var p := Handlers(cfg, store.cluster, binding, f);
    HandlersLength(cfg, store.cluster, binding, f);
    Begin(cfg, store.cluster, binding, f);
    cs, ran := RunHandlers(ctx, binding);
    RunEnds(FlowOf(cfg), SituationOf(cfg, binding), cs, ran);
    var ok := ctx.Close(p);
    return flow.retry || !ok, flow.err || !ok, ctx.memory, cs, ran;
  }

  lemma Begin(cfg: Config, s: Cluster, m: BindingObject, f: Fate)
    requires Serviceable(cfg, s, m, f)
    ensures var hs := FlowOf(cfg);
      StageAt(hs, 0) == 0 && (f.collection.Halted? ==> f.collection.at in hs[0..])
    ensures RanTo(FlowOf(cfg), SituationOf(cfg, m), [], RUNNING)
  {
    var hs := FlowOf(cfg);
    assert hs[0..] == hs;
  }

  /** BindingReconciler.Reconcile. */
  method Reconcile(cfg: Config, store: Store, f: Fate)
    requires store.cluster.binding.Some? ==> Serviceable(cfg, store.cluster, store.cluster.binding.value, f)
    modifies store
    ensures store.cluster == Reconciled(cfg, old(store.cluster), f)
  {
    hide Processed, Serviceable;
    if store.cluster.binding.None? || !f.get { return; }
    var binding := store.cluster.binding.value;
    if !binding.deleted {
      var fs, added := MaybeAddFinalizer(binding.finalizers);
      if added {
        if !f.finalizerWrite { return; }
        ServiceableSame(cfg, store.cluster, binding, f,
          store.cluster.(binding := Some(binding.(finalizers := fs))), binding.(finalizers := fs));
        binding := binding.(finalizers := fs);
        store.cluster := store.cluster.(binding := Some(binding));
      }
    }
    ghost var cs, ran;
    var retry, err, memory;
    retry, err, memory, cs, ran := Process(cfg, store, f, binding);
    if !retry && !err && binding.deleted {
      var fs, removed := MaybeRemoveFinalizer(memory.finalizers);
      if removed && f.finalWrite && store.cluster.binding.Some? {
        store.cluster := Settle(store.cluster.(
          binding := Some(store.cluster.binding.value.(annotation := memory.annotation, finalizers := fs))));
      }
    }
  }
}
