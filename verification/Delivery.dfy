/**
 What a reconcile brings to workloads with pod templates, from the binding to
 the fields of the stored documents: exactly the containers that the binding
 names get its secret, and the others stay as they are.
 */
module Deliveries {

  import opened Sequences
  import opened Documents
  import opened Entries
  import opened Pods
  import opened Views
  import opened Projection
  import opened Slots
  import opened Laws
  import opened Templates
  import opened Stored
  import opened Theorems
  import opened Standard
  import opened Finding
  import opened Contents
  import opened Pipelines
  import opened Protocol
  import opened Rebinding
  import opened Lifecycle
  import opened PodRealms

  /** The place of an item in a list of the pod spec. */
  function ItemLoc(list: string, i: nat): Loc
  {
    [Key("spec"), Key("template"), Key("spec"), Key(list), At(i)]
  }

  predicate HasList(d: Json, l: Loc, xs: seq<Json>)
  {
    Walk(d, l) == Found(List(xs, false))
  }

  /** The container has the binding in its fields. */
  ghost predicate Equipped(cfg: Config, secret: string, d: Json, item: Loc)
  {
    && (cfg.files ==> exists ms, env, root ::
          && HasList(d, item + [Key("volumeMounts")], ms) && HasList(d, item + [Key("env")], env)
          && RootShown(env, root) && MountsBeneath(ms, cfg.name, root))
    && (!cfg.files ==> exists es :: HasList(d, item + [Key("envFrom")], es) && ReferredOnce(es, secret))
    && (cfg.env != [] ==> exists env ::
          && HasList(d, item + [Key("env")], env)
          && forall i :: 0 <= i < |cfg.env| ==> VariableShown(env, cfg.env[i], secret))
  }

  /** A workload with a pod template that the laws apply to, and a wanted container. */
  ghost predicate Eligible(cfg: Config, doc: Json)
  {
    && Plain(doc) && Walk(doc, POD_SPEC).Found?
    && (MapList(doc, "containers") || !Walk(doc, POD_SPEC + [Key("containers")]).Found?)
    && (MapList(doc, "initContainers") || !Walk(doc, POD_SPEC + [Key("initContainers")]).Found?)
    && SelectionFor(cfg, None).Some? && PodLists(doc, SelectionFor(cfg, None).value)
  }

  lemma DefaultSelection(cfg: Config)
    requires cfg.extra.None?
    ensures SelectionFor(cfg, None).Some? && PodSelection(SelectionFor(cfg, None).value)
    ensures ResourceTemplate(None, cfg.gvr.version, None) == Some(SelectionFor(cfg, None).value.mapping)
    ensures SelectionFor(cfg, None).value ==
      Selection(WorkloadMapping([PodContainer(CONTAINERS), PodContainer(INIT_CONTAINERS)], DEFAULT_VOLUMES), cfg.names)
  {
    hide ResourceTemplate, PodContainer;
    DefaultMapping(cfg.gvr.version, CONTAINERS);
  }

  /** The item is in the list of the pod spec, and its name is wanted. */
  ghost predicate Picked(cfg: Config, doc: Json, list: string, i: nat)
  {
    && Walk(doc, ItemLoc(list, i)).Found?
    && Wanted(cfg.names, Walk(doc, ItemLoc(list, i)).value, ["name"])
  }

  lemma ItemsThere(doc: Json, list: string, i: nat)
    requires MapList(doc, list) || !Walk(doc, POD_SPEC + [Key(list)]).Found?
    ensures Walk(doc, ItemLoc(list, i)).Found? <==>
      MapList(doc, list) && i < |Walk(doc, POD_SPEC + [Key(list)]).value.items|
    ensures MapList(doc, list) && i < |Walk(doc, POD_SPEC + [Key(list)]).value.items| ==>
      Walk(doc, ItemLoc(list, i)) == Found(Walk(doc, POD_SPEC + [Key(list)]).value.items[i])
  {
    hide Walk;
    var l := POD_SPEC + [Key(list)];
    assert ItemLoc(list, i) == l + [At(i)];
    if MapList(doc, list) {
      Finding.ItemWalk(doc, l, i);
    } else {
      WalkSplit(doc, l, [At(i)]);
    }
  }

  /** The containers found are exactly the chosen items. */
  lemma PickedFound(cfg: Config, doc: Json, c: MetaContainer)
    requires cfg.extra.None? && Eligible(cfg, doc)
    ensures c in SiteOf(doc, SelectionFor(cfg, None).value).cs <==>
      exists list, i: nat :: list in {"containers", "initContainers"} && Picked(cfg, doc, list, i) &&
        c == PodHandle(ItemLoc(list, i))
  {
    hide Walk, Wanted, MapList, ResourceTemplate, PodLists, Plain, SelectionFor, WantedItems;
    var sel := SelectionFor(cfg, None).value;
    DefaultSelection(cfg);
    DefaultFinds(doc, sel, cfg.gvr.version);
    HandlesPicked(cfg, doc, "containers", c);
    HandlesPicked(cfg, doc, "initContainers", c);
  }

  lemma HandlesPicked(cfg: Config, doc: Json, list: string, c: MetaContainer)
    requires MapList(doc, list) || !Walk(doc, POD_SPEC + [Key(list)]).Found?
    ensures c in ListHandles(doc, list, cfg.names) <==>
      exists i: nat :: Picked(cfg, doc, list, i) && c == PodHandle(ItemLoc(list, i))
  {
    hide Walk, Wanted;
    var l := POD_SPEC + [Key(list)];
    forall i: nat { ItemsThere(doc, list, i); }
    if MapList(doc, list) {
      var items := Walk(doc, l).value.items;
      WantedAre(cfg.names, l, items, 0, c);
      forall i: nat | i < |items| ensures PodHandle(ItemLoc(list, i)) ==
        MetaContainer(l + [At(i)], ["env"], ["envFrom"], ["volumeMounts"])
      {
        assert ItemLoc(list, i) == l + [At(i)];
      }
      if c in ListHandles(doc, list, cfg.names) {
        var j: nat :| WantedAt(cfg.names, l, items, j, c);
        assert Picked(cfg, doc, list, j);
      }
      if i: nat :| Picked(cfg, doc, list, i) && c == PodHandle(ItemLoc(list, i)) {
        assert Walk(doc, ItemLoc(list, i)).value == items[i];
        assert WantedAt(cfg.names, l, items, i, c);
      }
    }
  }

  lemma ListedThere(d: Json, l: Loc, kind: Kind)
    requires Plain(d) && Listed(Read(d, l, kind)) != []
    ensures HasList(d, l, Listed(Read(d, l, kind)))
  {
    ReadPlain(d, l, kind);
  }

  lemma OneKey(k: string)
    ensures Keys([k]) == [Key(k)]
  {
  }

  /** The lists of a container that hold the binding are its fields. */
  lemma FieldsHold(cfg: Config, secret: string, d: Json, item: Loc, s: Slots)
    requires Plain(d) && Carries(BindingFor(cfg, secret), s, ContainerSlots(d, PodHandle(item)))
    ensures Equipped(cfg, secret, d, item)
  {
    hide Plain, Read, RootShown, RootBefore, VariableShown, ReferredAt, HasList, Unnamed;
    var b, c := BindingFor(cfg, secret), PodHandle(item);
    var t := ContainerSlots(d, c);
    OneKey("env");
    OneKey("envFrom");
    OneKey("volumeMounts");
    if cfg.files {
      var root :| RootShown(Listed(t.env), root) && MountsBeneath(Listed(t.mounts), b.name, root);
      RootNonempty(Listed(t.env), root);
      ListedThere(d, item + [Key("env")], EnvVar);
      ListedThere(d, item + [Key("volumeMounts")], VolumeMount);
    } else {
      ReferredNonempty(Listed(t.envFrom), secret);
      ListedThere(d, item + [Key("envFrom")], EnvFrom);
    }
    if cfg.env != [] {
      assert VariableShown(Listed(t.env), b.env[0], secret);
      ShownNonempty(Listed(t.env), b.env[0], secret);
      ListedThere(d, item + [Key("env")], EnvVar);
    }
  }

  lemma RootNonempty(env: seq<Json>, root: string)
    requires RootShown(env, root)
    ensures env != []
  {
  }

  lemma ReferredNonempty(es: seq<Json>, secret: string)
    requires ReferredOnce(es, secret)
    ensures es != []
  {
  }

  lemma ShownNonempty(env: seq<Json>, e: EnvBinding, secret: string)
    requires VariableShown(env, e, secret)
    ensures env != []
  {
  }

  /** An item that is not chosen is apart from all lists of the site. */
  lemma OthersElsewhere(cfg: Config, doc: Json, d: Json, list: string, i: nat)
    requires cfg.extra.None? && Eligible(cfg, doc) && list in {"containers", "initContainers"}
    requires Walk(doc, ItemLoc(list, i)).Found? && !Picked(cfg, doc, list, i)
    ensures Elsewhere(d, SiteTargets(SiteOf(doc, SelectionFor(cfg, None).value)), ItemLoc(list, i))
  {
    hide Walk, Eligible, Picked, SelectionFor, BindablePods;
    DefaultSelection(cfg);
    var sel, q := SelectionFor(cfg, None).value, ItemLoc(list, i);
    var cs := SiteOf(doc, sel).cs;
    forall t | t in SiteTargets(SiteOf(doc, sel)) ensures !Comparable(t.loc, q) {
      if t == VolumeT(sel) {
        assert t.loc[3] == Key("volumes") && q[3] == Key(list);
      } else {
        var c := Owner(cs, t);
        PickedFound(cfg, doc, c);
        assert c.loc <= t.loc && |c.loc| == 5 && c.loc != q;
        assert t.loc[..5] == c.loc && q[..5] == q;
      }
    }
  }

  /** What the stored workload shows after one projecting pass. */
  ghost predicate Arrived(cfg: Config, secret: string, doc: Json, d: Json)
  {
    && (forall list, i: nat :: list in {"containers", "initContainers"} && Walk(doc, ItemLoc(list, i)).Found? ==>
          if Picked(cfg, doc, list, i) then Equipped(cfg, secret, d, ItemLoc(list, i))
          else Walk(d, ItemLoc(list, i)) == Walk(doc, ItemLoc(list, i)))
    && (cfg.files ==> exists vs ::
          HasList(d, [Key("spec"), Key("template"), Key("spec"), Key("volumes")], vs) &&
          VolumeShows(vs, cfg.name, secret))
  }

  lemma ItemArrives(cfg: Config, secret: string, doc: Json, d: Json, list: string, i: nat)
    requires cfg.extra.None? && Eligible(cfg, doc) && Plain(d)
    requires list in {"containers", "initContainers"} && Walk(doc, ItemLoc(list, i)).Found?
    requires OthersKept(doc, d, SelectionFor(cfg, None).value)
    requires forall c :: c in SiteOf(doc, SelectionFor(cfg, None).value).cs ==>
      Carries(BindingFor(cfg, secret), ContainerSlots(doc, c), ContainerSlots(d, c))
    ensures if Picked(cfg, doc, list, i) then Equipped(cfg, secret, d, ItemLoc(list, i))
      else Walk(d, ItemLoc(list, i)) == Walk(doc, ItemLoc(list, i))
  {
    hide Walk, Eligible, Picked, SelectionFor, Carries, SiteTargets, ContainerSlots, Equipped, Plain, SiteOf, Elsewhere;
    if Picked(cfg, doc, list, i) {
      var c := PodHandle(ItemLoc(list, i));
      PickedFound(cfg, doc, c);
      FieldsHold(cfg, secret, d, ItemLoc(list, i), ContainerSlots(doc, c));
    } else {
      OthersElsewhere(cfg, doc, d, list, i);
    }
  }

  lemma VolumesArrive(cfg: Config, secret: string, d: Json)
    requires cfg.extra.None? && Plain(d) && SelectionFor(cfg, None).Some?
    requires VolumeShows(Listed(Volumes(d, SelectionFor(cfg, None).value)), cfg.name, secret)
    ensures exists vs ::
      HasList(d, [Key("spec"), Key("template"), Key("spec"), Key("volumes")], vs) && VolumeShows(vs, cfg.name, secret)
  {
    hide SelectionFor, Plain, Read, HasList;
    DefaultSelection(cfg);
    var sel := SelectionFor(cfg, None).value;
    assert VolumeT(sel).loc == [Key("spec"), Key("template"), Key("spec"), Key("volumes")];
    ShowsNonempty(Listed(Volumes(d, sel)), cfg.name, secret);
    ListedThere(d, VolumeT(sel).loc, Volume);
  }

  lemma PassArrives(cfg: Config, secret: string, doc: Json)
    requires cfg.extra.None? && Eligible(cfg, doc)
    requires var b := BindingFor(cfg, secret);
      CleanFor(AsEnv, b, doc, SelectionFor(cfg, None).value) && Distinct(Variables(b))
    ensures Arrived(cfg, secret, doc, Bound(BindingFor(cfg, secret), doc, SelectionFor(cfg, None).value, cfg.lenient))
  {
    hide Eligible, SelectionFor, Bound, Workable, Carries, CleanFor, ContainerSlots, Arrived, Plain, Unnamed, SiteOf,
      OthersKept, Volumes, VolumeShows, Distinct, Variables, PodFamily, ResourceTemplate, PodSelection, PodContainer;
    DefaultSelection(cfg);
    var b, sel := BindingFor(cfg, secret), SelectionFor(cfg, None).value;
    var d := Bound(b, doc, sel, cfg.lenient);
    EligibleWorkable(cfg, doc);
    Delivered(b, doc, sel, cfg.lenient);
    BoundOthers(b, doc, sel, cfg.lenient);
    ArrivedIs(cfg, secret, doc, d);
  }

  lemma BoundOthers(b: Binding, doc: Json, sel: Selection, lenient: bool)
    requires Workable(doc, sel) && CleanFor(AsEnv, b, doc, sel)
    ensures OthersKept(doc, Bound(b, doc, sel, lenient), sel) && Plain(Bound(b, doc, sel, lenient))
  {
    hide Bound, BindablePods, SiteTargets, Tidy, Calm, Plain, CleanFor, Coherent, ContainerSlots, Volumes, BindSlots;
    BoundSite(b, doc, sel, lenient);
  }

  lemma ArrivedIs(cfg: Config, secret: string, doc: Json, d: Json)
    requires cfg.extra.None? && Eligible(cfg, doc) && Plain(d) && SelectionFor(cfg, None).Some?
    requires OthersKept(doc, d, SelectionFor(cfg, None).value)
    requires forall c :: c in SiteOf(doc, SelectionFor(cfg, None).value).cs ==>
      Carries(BindingFor(cfg, secret), ContainerSlots(doc, c), ContainerSlots(d, c))
    requires cfg.files ==> VolumeShows(Listed(Volumes(d, SelectionFor(cfg, None).value)), cfg.name, secret)
    ensures Arrived(cfg, secret, doc, d)
  {
    hide Walk, Eligible, Picked, SelectionFor, Carries, ContainerSlots, Equipped, Plain, SiteOf, HasList, OthersKept,
      VolumeShows, Volumes;
    forall list, i: nat | list in {"containers", "initContainers"} && Walk(doc, ItemLoc(list, i)).Found?
      ensures if Picked(cfg, doc, list, i) then Equipped(cfg, secret, d, ItemLoc(list, i))
        else Walk(d, ItemLoc(list, i)) == Walk(doc, ItemLoc(list, i))
    {
      ItemArrives(cfg, secret, doc, d, list, i);
    }
    if cfg.files { VolumesArrive(cfg, secret, d); }
  }

  lemma ShowsNonempty(vs: seq<Json>, name: string, secret: string)
    requires VolumeShows(vs, name, secret)
    ensures vs != []
  {
  }

  lemma EligibleWorkable(cfg: Config, doc: Json)
    requires cfg.extra.None? && Eligible(cfg, doc)
    ensures Workable(doc, SelectionFor(cfg, None).value)
    ensures PodFamily(doc, {SelectionFor(cfg, None).value})
  {
    hide Walk, Workable, PodSelection, PodLists, SelectionFor, Plain;
    DefaultSelection(cfg);
    PodWorkable(doc, SelectionFor(cfg, None).value);
  }

  /**
   * A reconcile in which every call succeeds, without a mapping for the
   * resource: each workload is stored with the collected secret in exactly the
   * containers that the binding asks for, and the secret is recorded.
   */
  lemma Arrives(cfg: Config, s: Cluster, f: Fate, k: nat)
    requires s.binding.Some? && !UnbindRequested(s.binding.value) && s.mapping.None? && cfg.extra.None?
    requires Favourable(f) && f.collection.Collected? && k < |s.apps|
    requires forall j :: 0 <= j < |s.apps| ==> Eligible(cfg, s.apps[j])
    requires var b, doc := BindingFor(cfg, f.collection.secret), s.apps[k];
      Eligible(cfg, doc) && CleanFor(AsEnv, b, doc, SelectionFor(cfg, None).value) && Distinct(Variables(b))
    ensures var s' := Reconciled(cfg, s, f);
      && |s'.apps| == |s.apps| && Arrived(cfg, f.collection.secret, s.apps[k], s'.apps[k])
      && s'.binding.Some? && s'.binding.value.ready && FINALIZER in s'.binding.value.finalizers
      && (f.collection.persisted && f.collection.secret != "" ==> s'.binding.value.secret == f.collection.secret)
  {
    hide Arrived, Eligible, SelectionFor, Bound, CleanFor, Processed, PodFamily, AtHome, PodRealm;
    var b := s.binding.value;
    var m := if FINALIZER in b.finalizers then b else b.(finalizers := WithFinalizer(b.finalizers));
    var s1 := s.(binding := Some(m));
    DefaultSelection(cfg);
    var sels := {SelectionFor(cfg, None).value};
    forall j | 0 <= j < |s.apps| ensures AtHome(s.apps[j], PodRealm(s.apps[j], sels)) {
      EligibleWorkable(cfg, s.apps[j]);
      PodAtHome(s.apps[j], sels);
    }
    KnownCharted(cfg, None, s.apps, sels);
    ProjectStores(cfg, s1, f, PodRealmsOf(s.apps, sels));
    PassArrives(cfg, f.collection.secret, s.apps[k]);
    assert Reconciled(cfg, s, f) == Processed(cfg, s1, f).0;
  }
}
