/**
 A deployment with a container and an init container, in a cluster whose mappings
 move a binding from one to the other: inputs at which the hypotheses about
 workloads, runs and stranded signs hold, and at which the laws have their limits.
 */
module Witnesses {

  import opened Sequences
  import opened Documents
  import opened Entries
  import opened Pods
  import opened Views
  import opened Projection
  import opened Slots
  import opened Laws
  import opened Templates
  import opened Stored
  import opened Theorems
  import opened Pairs
  import opened Standard
  import opened Finding
  import opened Signs
  import opened Pipelines
  import opened Protocol
  import opened Rebinding
  import opened Lifecycle
  import opened Finalizing
  import opened PodRealms
  import opened Deliveries

  // ---- The deployment ----

  const APP: Json := Obj(map["name" := Str("app")])
  const POD: Json := Obj(map["containers" := List([APP], false), "initContainers" := List([APP], false)])
  const TEMPLATE: Json := Obj(map["spec" := POD])
  const SPEC: Json := Obj(map["template" := TEMPLATE])
  const DEPLOYMENT: Json := Obj(map["spec" := SPEC])

  lemma DeploymentPlain()
    ensures Plain(DEPLOYMENT)
  {
    PlainObj(APP.fields);
    assert Norm(List([APP], false)).items == [APP];
    assert Plain(List([APP], false));
    PlainObj(POD.fields);
    PlainObj(TEMPLATE.fields);
    PlainObj(SPEC.fields);
    PlainObj(DEPLOYMENT.fields);
  }

  lemma DeploymentWalk(q: Loc)
    ensures Walk(DEPLOYMENT, POD_SPEC) == Found(POD)
    ensures Walk(DEPLOYMENT, POD_SPEC + q) == Walk(POD, q)
  {
    assert POD_SPEC[1..] == [Key("template"), Key("spec")] && POD_SPEC[1..][1..] == [Key("spec")];
    assert [Key("spec")][1..] == [];
    assert Walk(TEMPLATE, [Key("spec")]) == Found(POD);
    assert Walk(SPEC, POD_SPEC[1..]) == Found(POD);
    WalkSplit(DEPLOYMENT, POD_SPEC, q);
  }

  predicate IsList(list: string)
  {
    list == CONTAINERS || list == INIT_CONTAINERS
  }

  lemma PodWalk(name: string, q: Loc)
    ensures Walk(POD, [Key(name)] + q) == if IsList(name) then Walk(List([APP], false), q) else Missing
  {
    assert ([Key(name)] + q)[1..] == q && ([Key(name)] + q)[0] == Key(name);
  }

  /** The only item of one of its lists. */
  function HandleOf(list: string): MetaContainer
  {
    PodHandle(POD_SPEC + [Key(list)] + [At(0)])
  }

  lemma WalkNowhere(v: Json)
    ensures Walk(v, []) == Found(v)
  {
  }

  lemma ListsThere(list: string)
    requires IsList(list)
    ensures Walk(DEPLOYMENT, POD_SPEC).Found? && MapList(DEPLOYMENT, list)
    ensures ListHandles(DEPLOYMENT, list, {}) == [HandleOf(list)]
  {
    hide Walk;
    DeploymentWalk([Key(list)]);
    PodWalk(list, []);
    assert [Key(list)] + [] == [Key(list)];
    WalkNowhere(List([APP], false));
    AllWanted(POD_SPEC + [Key(list)], [APP], 0);
  }

  lemma AppReads(list: string, name: string)
    requires IsList(list) && name != "name"
    ensures Walk(DEPLOYMENT, POD_SPEC + [Key(list)] + [At(0)] + [Key(name)]) == Missing
  {
    var q := [Key(list)] + [At(0), Key(name)];
    assert POD_SPEC + [Key(list)] + [At(0)] + [Key(name)] == POD_SPEC + q;
    DeploymentWalk(q);
    PodWalk(list, [At(0), Key(name)]);
    assert [At(0), Key(name)][1..] == [Key(name)] && [Key(name)][1..] == [];
    assert Walk(APP, [Key(name)]) == Missing;
  }

  /** Volumes in another field of the pod spec. */
  const OTHER_VOLUMES := ["spec", "template", "spec", "extraVolumes"]

  lemma NoVolumes(path: seq<string>)
    requires path == DEFAULT_VOLUMES || path == OTHER_VOLUMES
    ensures PodVolume(path) && Read(DEPLOYMENT, Keys(path), Volume) == Absent
  {
    hide Walk;
    assert PodVolume(path) by { assert |"extraVolumes"| != |CONTAINERS| && |"extraVolumes"| != |INIT_CONTAINERS|; }
    PodVolumeIs(path);
    DeploymentWalk([Key(path[3])]);
    PodWalk(path[3], []);
    assert [Key(path[3])] + [] == [Key(path[3])];
  }

  /** None of the lists that are edited is there yet. */
  lemma NoLists(list: string, sel: Selection)
    requires IsList(list) && (sel.mapping.volume == DEFAULT_VOLUMES || sel.mapping.volume == OTHER_VOLUMES)
    ensures ContainerSlots(DEPLOYMENT, HandleOf(list)) == Slots(Absent, Absent, Absent)
    ensures Volumes(DEPLOYMENT, sel) == Absent && |HandleOf(list).loc| == 5
  {
    hide Walk;
    AppReads(list, "env");
    AppReads(list, "envFrom");
    AppReads(list, "volumeMounts");
    assert Keys(["env"]) == [Key("env")] && Keys(["envFrom"]) == [Key("envFrom")];
    assert Keys(["volumeMounts"]) == [Key("volumeMounts")];
    NoVolumes(sel.mapping.volume);
  }

  // ---- Selections ----

  const DEFAULT_SELECTION :=
    Selection(WorkloadMapping([PodContainer(CONTAINERS), PodContainer(INIT_CONTAINERS)], DEFAULT_VOLUMES), {})

  /** One of the lists alone. */
  function Only(list: string): Selection
  {
    Selection(WorkloadMapping([PodContainer(list)], DEFAULT_VOLUMES), {})
  }

  /** The containers, with volumes elsewhere. */
  const APART: Selection := Selection(WorkloadMapping([PodContainer(CONTAINERS)], OTHER_VOLUMES), {})

  const SELECTIONS: set<Selection> := {DEFAULT_SELECTION, Only(CONTAINERS), Only(INIT_CONTAINERS), APART}

  lemma OnlyFinds(sel: Selection, list: string)
    requires IsList(list) && sel.names == {} && sel.mapping.containers == [PodContainer(list)]
    ensures BindablePods(DEPLOYMENT, sel) == Some([HandleOf(list)])
  {
    hide Walk, FromPath, MapList, ListHandles, PodContainer, HandleOf;
    var w := PodContainer(list);
    ListsThere(list);
    ListFound(DEPLOYMENT, sel, list);
    assert [w] == [w] + [];
    PathsStep(DEPLOYMENT, sel, w, []);
    NoPaths(DEPLOYMENT, sel);
    assert [HandleOf(list)] + [] == [HandleOf(list)];
  }

  lemma BothFound()
    ensures BindablePods(DEPLOYMENT, DEFAULT_SELECTION) == Some([HandleOf(CONTAINERS), HandleOf(INIT_CONTAINERS)])
  {
    hide Walk, MapList, ListHandles, PodSite, HandleOf;
    ListsThere(CONTAINERS);
    ListsThere(INIT_CONTAINERS);
    DefaultMapping("", CONTAINERS);
    DefaultFinds(DEPLOYMENT, DEFAULT_SELECTION, "");
    assert [HandleOf(CONTAINERS)] + [HandleOf(INIT_CONTAINERS)] == [HandleOf(CONTAINERS), HandleOf(INIT_CONTAINERS)];
  }

  /** What each selection finds. */
  lemma SiteIs(sel: Selection)
    requires sel in SELECTIONS
    ensures BindablePods(DEPLOYMENT, sel).Some?
    ensures forall c :: c in SiteOf(DEPLOYMENT, sel).cs ==> c == HandleOf(CONTAINERS) || c == HandleOf(INIT_CONTAINERS)
    ensures sel == Only(CONTAINERS) || sel == APART ==> SiteOf(DEPLOYMENT, sel).cs == [HandleOf(CONTAINERS)]
    ensures sel == Only(INIT_CONTAINERS) ==> SiteOf(DEPLOYMENT, sel).cs == [HandleOf(INIT_CONTAINERS)]
    ensures sel == DEFAULT_SELECTION ==> SiteOf(DEPLOYMENT, sel).cs == [HandleOf(CONTAINERS), HandleOf(INIT_CONTAINERS)]
    ensures PodSelection(sel)
  {
    hide BindablePods, HandleOf;
    OnlyFinds(Only(CONTAINERS), CONTAINERS);
    OnlyFinds(Only(INIT_CONTAINERS), INIT_CONTAINERS);
    OnlyFinds(APART, CONTAINERS);
    BothFound();
    NoVolumes(sel.mapping.volume);
  }

  /** The deployment meets every hypothesis about workloads. */
  lemma SomeDeployment()
    ensures PodFamily(DEPLOYMENT, SELECTIONS) && AtHome(DEPLOYMENT, PodRealm(DEPLOYMENT, SELECTIONS))
    ensures forall sel :: sel in SELECTIONS ==> Workable(DEPLOYMENT, sel)
  {
    hide Plain, Workable, AtHome, PodSelection, BindablePods, ContainerSlots, Volumes, HandleOf;
    DeploymentPlain();
    forall sel | sel in SELECTIONS ensures PodSelection(sel) && PodLists(DEPLOYMENT, sel) && Workable(DEPLOYMENT, sel) {
      SiteIs(sel);
      NoLists(CONTAINERS, sel);
      NoLists(INIT_CONTAINERS, sel);
      assert PodLists(DEPLOYMENT, sel);
      PodWorkable(DEPLOYMENT, sel);
    }
    PodAtHome(DEPLOYMENT, SELECTIONS);
  }

  /** It shows no sign of any binding. */
  lemma NoSign(x: Sign)
    ensures NotBound(DEPLOYMENT, PodRealm(DEPLOYMENT, SELECTIONS), x)
  {
    hide BindablePods, HandleOf, Volumes, SiteOf, SiteTargets;
    forall t | t in PodRealm(DEPLOYMENT, SELECTIONS).ts && Shows(t, x) ensures SignCount(DEPLOYMENT, t, x) == 0 {
      var sel :| sel in SELECTIONS && t in SiteTargets(SiteOf(DEPLOYMENT, sel));
      NothingListed(sel, t);
    }
  }

  lemma NothingListed(sel: Selection, t: Target)
    requires sel in SELECTIONS && t in SiteTargets(SiteOf(DEPLOYMENT, sel))
    ensures Read(DEPLOYMENT, t.loc, t.kind) == Absent
  {
    hide BindablePods, HandleOf, Read;
    SiteIs(sel);
    NoLists(CONTAINERS, sel);
    NoLists(INIT_CONTAINERS, sel);
    if t != VolumeT(sel) {
      var c := Owner(SiteOf(DEPLOYMENT, sel).cs, t);
    }
  }

  // ---- Mappings ----

  /** A mapping of the resource to one of the two lists. */
  function MappingTo(gvr: GroupVersionResource, list: string): ResourceMapping
  {
    ResourceMapping(gvr.resource + "." + gvr.group, [Template("*", UNSET, UNSET, [OwnContainer(list)])])
  }

  /** A mapping that offers no version: bindings use the default template. */
  function EmptyMapping(gvr: GroupVersionResource): ResourceMapping
  {
    ResourceMapping(gvr.resource + "." + gvr.group, [])
  }

  lemma Resolves(cfg: Config, list: string)
    requires cfg.names == {} && cfg.extra.None?
    ensures Valid(MappingTo(cfg.gvr, list)) && Accepts(MappingTo(cfg.gvr, list), cfg.gvr)
    ensures SelectionFor(cfg, Some(MappingTo(cfg.gvr, list))) == Some(Only(list))
    ensures !Accepts(EmptyMapping(cfg.gvr), cfg.gvr)
    ensures SelectionFor(cfg, Some(EmptyMapping(cfg.gvr))) == Some(DEFAULT_SELECTION)
    ensures SelectionFor(cfg, None) == Some(DEFAULT_SELECTION)
  {
    hide ConvertContainers, OwnContainer, PodContainer;
    var t := Template("*", UNSET, UNSET, [OwnContainer(list)]);
    var m := MappingTo(cfg.gvr, list);
    assert m.versions[0] == t && m.versions[1..] == [];
    OneOk(list);
    assert !Blank("*") by { assert !Space("*"[0]); }
    PodContainerConverts(list);
    NoContainers();
    ConvertOneMore([], OwnContainer(list), [], PodContainer(list));
    assert [] + [OwnContainer(list)] == [OwnContainer(list)] && [] + [PodContainer(list)] == [PodContainer(list)];
    assert Select(m.versions, cfg.gvr.version, DEFAULT_TEMPLATE) == t;
    DefaultMapping(cfg.gvr.version, list);
  }

  /** A mapping to the containers with volumes elsewhere. */
  function MappingApart(gvr: GroupVersionResource): ResourceMapping
  {
    var volumes := Restricted(".spec.template.spec.extraVolumes", Some(Dotted(OTHER_VOLUMES)));
    ResourceMapping(gvr.resource + "." + gvr.group, [Template("*", UNSET, volumes, [OwnContainer(CONTAINERS)])])
  }

  lemma ResolvesApart(cfg: Config)
    requires cfg.names == {} && cfg.extra.None?
    ensures Valid(MappingApart(cfg.gvr)) && SelectionFor(cfg, Some(MappingApart(cfg.gvr))) == Some(APART)
  {
    hide ConvertContainers, OwnContainer, PodContainer, Strange, InOrder, Dotted;
    var m := MappingApart(cfg.gvr);
    var t := m.versions[0];
    assert m.versions == [t] && m.versions[1..] == [];
    OneOk(CONTAINERS);
    DottedOk(OTHER_VOLUMES);
    assert !Blank("*") by { assert !Space("*"[0]); }
    PodContainerConverts(CONTAINERS);
    NoContainers();
    ConvertOneMore([], OwnContainer(CONTAINERS), [], PodContainer(CONTAINERS));
    assert [] + [OwnContainer(CONTAINERS)] == [OwnContainer(CONTAINERS)];
    assert [] + [PodContainer(CONTAINERS)] == [PodContainer(CONTAINERS)];
    assert Select(m.versions, cfg.gvr.version, DEFAULT_TEMPLATE) == t;
  }

  lemma OneOk(list: string)
    ensures ContainerOk(OwnContainer(list))
  {
  }

  lemma NoContainers()
    ensures ConvertContainers([]) == Some([])
  {
  }

  // ---- A bound deployment ----

  const CREDENTIALS := "credentials"

  /** Every call succeeds, and the secret is persisted. */
  const GOOD: Fate := Fate(true, true, true, Collected(CREDENTIALS, true), {}, true, true, true)

  /** A configuration that resolves as above, and a sign that its binding leaves and removes. */
  ghost predicate Ordinary(cfg: Config, x: Sign)
  {
    && cfg.names == {} && cfg.extra.None? && Sane(cfg.env, x)
    && Leaves(BindingFor(cfg, CREDENTIALS), x) && Removes(BindingFor(cfg, CREDENTIALS), x)
  }

  /** Volumes and mounts are such signs in file mode, references in environment mode. */
  lemma OrdinarySigns(cfg: Config)
    requires cfg.names == {} && cfg.extra.None?
    ensures Ordinary(cfg, if cfg.files then Mounted(cfg.name) else Referenced(CREDENTIALS))
  {
  }

  function Start(m: Option<ResourceMapping>): Cluster
  {
    Cluster(m, Some(NEW_BINDING), [DEPLOYMENT])
  }

  ghost function Realms(): seq<Realm>
  {
    [PodRealm(DEPLOYMENT, SELECTIONS)]
  }

  /** A cluster with a new binding meets the hypotheses about the beginning of a run. */
  lemma SomeCluster(cfg: Config, m: Option<ResourceMapping>, x: Sign)
    requires Sane(cfg.env, x) && Known(cfg, m, SELECTIONS)
    ensures Untouched(cfg, Start(m), SELECTIONS) && Charted(cfg, m, Realms())
    ensures InPlace(cfg, Start(m), Realms(), x) && Guarded(cfg, Start(m), Realms(), x)
  {
    hide PodFamily, PodRealm, AtHome, SelectionFor, Workable, NotBound, Sane, InPlace, Charted;
    SomeDeployment();
    NoSign(x);
    assert PodRealmsOf([DEPLOYMENT], SELECTIONS) == Realms();
    UntouchedInPlace(cfg, Start(m), SELECTIONS, x);
    UntouchedHoused(cfg, Start(m), SELECTIONS);
  }

  /** The cluster after the first reconcile. */
  function BoundCluster(cfg: Config, m: Option<ResourceMapping>): Cluster
  {
    Reconciled(cfg, Start(m), GOOD)
  }

  lemma BoundClusterIs(cfg: Config, m: Option<ResourceMapping>, x: Sign)
    requires Ordinary(cfg, x) && Known(cfg, m, SELECTIONS)
    ensures var s := BoundCluster(cfg, m);
      && InPlace(cfg, s, Realms(), x) && BoundExactly(cfg, s, m, Realms(), x)
      && s.mapping == m && |s.apps| == 1 && s.binding.Some?
      && var b := s.binding.value;
         b.annotation.None? && !b.deleted && FINALIZER in b.finalizers && b.secret == CREDENTIALS
  {
    hide PodRealm, AtHome, SelectionFor, Sane, Leaves, Removes, InPlace, BoundExactly, Processed;
    SomeCluster(cfg, m, x);
    var s := Start(m);
    var b := NEW_BINDING.(finalizers := [FINALIZER]);
    var s0 := s.(binding := Some(b));
    assert WithFinalizer([]) == [FINALIZER];
    FinalizerInPlace(cfg, s, s0, Realms(), x);
    ProjectRun(cfg, s0, GOOD, Realms(), x);
    UntouchedHoused(cfg, s, SELECTIONS);
    assert PodRealmsOf([DEPLOYMENT], SELECTIONS) == Realms();
    ProjectStores(cfg, s0, GOOD, Realms());
    assert Reconciled(cfg, s, GOOD) == Processed(cfg, s0, GOOD).0;
    StepInPlace(cfg, s, Reconcile(GOOD), Realms(), x);
  }

  // ---- Moving and stranding ----

  /** The list of the container, or of the init container, that shows the sign. */
  function Place(list: string, x: Sign): Target
  {
    PlaceIn(HandleOf(list), x)
  }

  lemma PlaceKnown(list: string, x: Sign)
    requires IsList(list)
    ensures Place(list, x) in PodRealm(DEPLOYMENT, SELECTIONS).ts && Shows(Place(list, x), x)
    ensures Only(list) in PodRealm(DEPLOYMENT, SELECTIONS).sites
    ensures PodRealm(DEPLOYMENT, SELECTIONS).sites[Only(list)] == [HandleOf(list)]
  {
    hide BindablePods, HandleOf, PodContainer;
    SiteIs(Only(list));
    OwnTargets(SiteOf(DEPLOYMENT, Only(list)).cs, HandleOf(list));
    assert Place(list, x) in SiteTargets(SiteOf(DEPLOYMENT, Only(list)));
  }

  lemma ContainerKnown(cfg: Config, m: Option<ResourceMapping>, x: Sign)
    requires SelectionFor(cfg, m) == Some(DEFAULT_SELECTION) || SelectionFor(cfg, m) == Some(Only(CONTAINERS))
    ensures Known(cfg, m, SELECTIONS) && SelectionFor(cfg, m).value in PodRealm(DEPLOYMENT, SELECTIONS).sites
    ensures Owns(SiteFor(cfg, m, PodRealm(DEPLOYMENT, SELECTIONS)), Place(CONTAINERS, x), x)
  {
    hide BindablePods, HandleOf, PodContainer, SelectionFor;
    var sel := SelectionFor(cfg, m).value;
    SiteIs(sel);
    var c := HandleOf(CONTAINERS);
    assert c in SiteOf(DEPLOYMENT, sel).cs;
    assert c in PodRealm(DEPLOYMENT, SELECTIONS).sites[sel];
  }

  /** The container is no place of a mapping to the init container. */
  lemma ContainerForeign(cfg: Config, x: Sign)
    requires cfg.names == {} && cfg.extra.None?
    ensures var m, r := Some(MappingTo(cfg.gvr, INIT_CONTAINERS)), PodRealm(DEPLOYMENT, SELECTIONS);
      && Known(cfg, m, SELECTIONS) && Charted(cfg, m, Realms()) && Foreign(cfg, m, r, Place(CONTAINERS, x), x)
  {
    hide BindablePods, SelectionFor;
    var m := Some(MappingTo(cfg.gvr, INIT_CONTAINERS));
    Resolves(cfg, INIT_CONTAINERS);
    PlaceKnown(INIT_CONTAINERS, x);
    var a, b := HandleOf(CONTAINERS), HandleOf(INIT_CONTAINERS);
    assert a.loc[3] == Key("containers") && b.loc[3] == Key("initContainers");
    assert |Keys(["env"])| == 1 && |Keys(["envFrom"])| == 1 && |Keys(["volumeMounts"])| == 1;
    assert PlaceIn(a, x).loc[3] == a.loc[3] && PlaceIn(b, x).loc[3] == b.loc[3];
    assert x.Mounted? ==> PlaceIn(a, x) != VolumeT(Only(INIT_CONTAINERS));
    assert SiteFor(cfg, m, PodRealm(DEPLOYMENT, SELECTIONS)) == Site(Only(INIT_CONTAINERS), [b]);
  }

  /** The binding that was made under mapping `m` is in the container. */
  lemma InContainer(cfg: Config, m: Option<ResourceMapping>, x: Sign)
    requires Ordinary(cfg, x)
    requires SelectionFor(cfg, m) == Some(DEFAULT_SELECTION) || SelectionFor(cfg, m) == Some(Only(CONTAINERS))
    ensures Known(cfg, m, SELECTIONS)
    ensures var s := BoundCluster(cfg, m);
      |s.apps| == 1 && SignCount(s.apps[0], Place(CONTAINERS, x), x) == 1
    ensures ShownAt(cfg, BoundCluster(cfg, m), 0, PodRealm(DEPLOYMENT, SELECTIONS), Place(CONTAINERS, x), x)
  {
    hide PodRealm, AtHome, SelectionFor, BoundCluster, HandleOf, PlaceIn, Owns, Shows, InPlace, SignCount;
    ContainerKnown(cfg, m, x);
    BoundClusterIs(cfg, m, x);
    PlaceKnown(CONTAINERS, x);
  }

  /** A binding moves from the container to the init container. */
  lemma ReboundHere(cfg: Config, x: Sign)
    requires Ordinary(cfg, x)
    ensures var s := BoundCluster(cfg, Some(MappingTo(cfg.gvr, CONTAINERS)));
      var n := MappingTo(cfg.gvr, INIT_CONTAINERS);
      var s' := After(cfg, s, [UpdateMapping(n, Stored), Reconcile(GOOD), Reconcile(GOOD)]);
      && |s.apps| == 1 && SignCount(s.apps[0], Place(CONTAINERS, x), x) == 1
      && |s'.apps| == 1 && SignCount(s'.apps[0], Place(CONTAINERS, x), x) == 0
      && SignCount(s'.apps[0], Place(INIT_CONTAINERS, x), x) == 1
  {
    hide PodRealm, AtHome, SelectionFor, BoundCluster, MappingTo, Place, InPlace, SignCount, Valid, Accepts, After,
      Leaves, Removes, Sane, Owns, Shows;
    var m, n := Some(MappingTo(cfg.gvr, CONTAINERS)), MappingTo(cfg.gvr, INIT_CONTAINERS);
    Resolves(cfg, CONTAINERS);
    Resolves(cfg, INIT_CONTAINERS);
    InContainer(cfg, m, x);
    BoundClusterIs(cfg, m, x);
    ContainerForeign(cfg, x);
    Rebound(cfg, BoundCluster(cfg, m), n, GOOD, GOOD, Realms(), x);
    PlaceKnown(CONTAINERS, x);
    PlaceKnown(INIT_CONTAINERS, x);
    InitOwned(x);
  }

  lemma InitOwned(x: Sign)
    ensures Owns(Site(Only(INIT_CONTAINERS), [HandleOf(INIT_CONTAINERS)]), Place(INIT_CONTAINERS, x), x)
  {
    var c := HandleOf(INIT_CONTAINERS);
    assert c in [c];
  }

  /** Two updates in a row leave the binding in the container for good. */
  lemma SecondUpdateHere(cfg: Config, steps: seq<Event>, x: Sign)
    requires Ordinary(cfg, x) && NoChange(steps)
    ensures var n := MappingTo(cfg.gvr, INIT_CONTAINERS);
      var s := Next(cfg, BoundCluster(cfg, Some(MappingTo(cfg.gvr, CONTAINERS))), UpdateMapping(n, Stored));
      var s' := After(cfg, s, [UpdateMapping(n, Stored)] + steps);
      |s'.apps| == 1 && SignCount(s'.apps[0], Place(CONTAINERS, x), x) > 0
  {
    hide PodRealm, AtHome, SelectionFor, BoundCluster, MappingTo, Place, InPlace, SignCount, Valid, Accepts, After,
      Leaves, Removes, Sane, Shows, Foreign, NoChange, BoundExactly;
    var m, n := Some(MappingTo(cfg.gvr, CONTAINERS)), MappingTo(cfg.gvr, INIT_CONTAINERS);
    Resolves(cfg, CONTAINERS);
    Resolves(cfg, INIT_CONTAINERS);
    InContainer(cfg, m, x);
    BoundClusterIs(cfg, m, x);
    ContainerForeign(cfg, x);
    var s := Next(cfg, BoundCluster(cfg, m), UpdateMapping(n, Stored));
    SecondUpdateStrands(cfg, s, n, steps, 0, PodRealm(DEPLOYMENT, SELECTIONS), Place(CONTAINERS, x), x);
  }

  /** A mapping without versions is replaced unnoticed. */
  lemma UnnoticedUpdateHere(cfg: Config, steps: seq<Event>, x: Sign)
    requires Ordinary(cfg, x) && NoChange(steps)
    ensures var s := BoundCluster(cfg, Some(EmptyMapping(cfg.gvr)));
      var s' := After(cfg, s, [UpdateMapping(MappingTo(cfg.gvr, INIT_CONTAINERS), Stored)] + steps);
      |s'.apps| == 1 && SignCount(s'.apps[0], Place(CONTAINERS, x), x) > 0
  {
    hide PodRealm, AtHome, SelectionFor, BoundCluster, MappingTo, EmptyMapping, Place, InPlace, SignCount, Valid,
      Accepts, After, Leaves, Removes, Sane, Shows, Foreign, NoChange, BoundExactly;
    var m, n := Some(EmptyMapping(cfg.gvr)), MappingTo(cfg.gvr, INIT_CONTAINERS);
    Resolves(cfg, INIT_CONTAINERS);
    InContainer(cfg, m, x);
    BoundClusterIs(cfg, m, x);
    ContainerForeign(cfg, x);
    var r := PodRealm(DEPLOYMENT, SELECTIONS);
    UnnoticedUpdateStrands(cfg, BoundCluster(cfg, m), n, steps, 0, r, Place(CONTAINERS, x), x);
  }

  /** The first mapping of a resource strands what the default template placed. */
  lemma CreationHere(cfg: Config, steps: seq<Event>, x: Sign)
    requires Ordinary(cfg, x) && NoChange(steps)
    ensures var s' := After(cfg, BoundCluster(cfg, None), [CreateMapping(MappingTo(cfg.gvr, INIT_CONTAINERS))] + steps);
      |s'.apps| == 1 && SignCount(s'.apps[0], Place(CONTAINERS, x), x) > 0
  {
    hide PodRealm, AtHome, SelectionFor, BoundCluster, MappingTo, Place, InPlace, SignCount, Valid, After, Leaves,
      Removes, Sane, Shows, Foreign, NoChange, BoundExactly;
    var n := MappingTo(cfg.gvr, INIT_CONTAINERS);
    Resolves(cfg, INIT_CONTAINERS);
    InContainer(cfg, None, x);
    BoundClusterIs(cfg, None, x);
    ContainerForeign(cfg, x);
    var r := PodRealm(DEPLOYMENT, SELECTIONS);
    CreationStrands(cfg, BoundCluster(cfg, None), n, steps, 0, r, Place(CONTAINERS, x), x);
  }

  /** The volumes of a mapping that is deleted stay where it had put them. */
  lemma DeletionHere(cfg: Config, steps: seq<Event>)
    requires cfg.names == {} && cfg.extra.None? && cfg.files && NoChange(steps)
    ensures var s' := After(cfg, BoundCluster(cfg, Some(MappingApart(cfg.gvr))), [DeleteMapping] + steps);
      |s'.apps| == 1 && SignCount(s'.apps[0], VolumeT(APART), Mounted(cfg.name)) > 0
  {
    hide PodRealm, AtHome, SelectionFor, BoundCluster, MappingApart, InPlace, SignCount, Valid, After, NoChange,
      PodContainer, HandleOf, BoundExactly;
    var m, x, r := Some(MappingApart(cfg.gvr)), Mounted(cfg.name), PodRealm(DEPLOYMENT, SELECTIONS);
    ResolvesApart(cfg);
    Resolves(cfg, CONTAINERS);
    OrdinarySigns(cfg);
    BoundClusterIs(cfg, m, x);
    ApartPlace(cfg, m, x);
    ApartShown(cfg, m, x);
    DeletionStrands(cfg, BoundCluster(cfg, m), steps, 0, r, VolumeT(APART), x);
  }

  lemma ApartPlace(cfg: Config, m: Option<ResourceMapping>, x: Sign)
    requires x.Mounted? && SelectionFor(cfg, m) == Some(APART) && SelectionFor(cfg, None) == Some(DEFAULT_SELECTION)
    ensures var r := PodRealm(DEPLOYMENT, SELECTIONS);
      && VolumeT(APART) in r.ts && Shows(VolumeT(APART), x) && APART in r.sites
      && Owns(SiteFor(cfg, m, r), VolumeT(APART), x) && Foreign(cfg, None, r, VolumeT(APART), x)
  {
    hide BindablePods, HandleOf, PodContainer, SelectionFor;
    SiteIs(APART);
    assert VolumeT(APART) in SiteTargets(SiteOf(DEPLOYMENT, APART));
    NoVolumes(OTHER_VOLUMES);
    NoVolumes(DEFAULT_VOLUMES);
    PodVolumeIs(OTHER_VOLUMES);
    PodVolumeIs(DEFAULT_VOLUMES);
    assert VolumeT(APART).loc[3] == Key("extraVolumes") && VolumeT(DEFAULT_SELECTION).loc[3] == Key("volumes");
  }

  lemma ApartShown(cfg: Config, m: Option<ResourceMapping>, x: Sign)
    requires x.Mounted? && SelectionFor(cfg, m) == Some(APART) && Sane(cfg.env, x)
    requires BoundExactly(cfg, BoundCluster(cfg, m), m, Realms(), x)
    requires APART in PodRealm(DEPLOYMENT, SELECTIONS).sites && VolumeT(APART) in PodRealm(DEPLOYMENT, SELECTIONS).ts
    requires Owns(SiteFor(cfg, m, PodRealm(DEPLOYMENT, SELECTIONS)), VolumeT(APART), x)
    ensures |BoundCluster(cfg, m).apps| == 1
    ensures ShownAt(cfg, BoundCluster(cfg, m), 0, PodRealm(DEPLOYMENT, SELECTIONS), VolumeT(APART), x)
  {
    hide PodRealm, AtHome, SelectionFor, BoundCluster, SignCount, Owns, PodContainer;
    var s, t := BoundCluster(cfg, m), VolumeT(APART);
    assert Realms()[0] == PodRealm(DEPLOYMENT, SELECTIONS);
    assert t in Realms()[0].ts && Shows(t, x) && Owns(SiteFor(cfg, m, Realms()[0]), t, x);
    assert SignCount(s.apps[0], t, x) == 1;
  }

  /** The write of the unbound deployment is refused. */
  lemma RefusedWriteHere(cfg: Config, steps: seq<Event>, x: Sign)
    requires Ordinary(cfg, x) && NoChange(steps)
    ensures var s := Next(cfg, BoundCluster(cfg, Some(MappingTo(cfg.gvr, CONTAINERS))),
                          UpdateMapping(MappingTo(cfg.gvr, INIT_CONTAINERS), Stored));
      var s' := Reconciled(cfg, s, GOOD.(refused := {0}));
      && s.binding.Some? && s.binding.value.annotation.Some? && s'.binding.Some? && s'.binding.value.annotation.None?
      && |After(cfg, s', steps).apps| == 1 && SignCount(After(cfg, s', steps).apps[0], Place(CONTAINERS, x), x) > 0
  {
    hide PodRealm, AtHome, SelectionFor, BoundCluster, MappingTo, Place, InPlace, SignCount, Valid, Accepts, After,
      Leaves, Removes, Sane, Shows, Foreign, NoChange, BoundExactly, Reconciled;
    var m, n := Some(MappingTo(cfg.gvr, CONTAINERS)), MappingTo(cfg.gvr, INIT_CONTAINERS);
    Resolves(cfg, CONTAINERS);
    Resolves(cfg, INIT_CONTAINERS);
    InContainer(cfg, m, x);
    BoundClusterIs(cfg, m, x);
    ContainerForeign(cfg, x);
    UpdateInPlace(cfg, BoundCluster(cfg, m), n, Realms(), x);
    var s := Next(cfg, BoundCluster(cfg, m), UpdateMapping(n, Stored));
    var f := GOOD.(refused := {0});
    assert Realms()[0] == PodRealm(DEPLOYMENT, SELECTIONS);
    PlaceKnown(CONTAINERS, x);
    StillThere(cfg, s, f, Realms(), 0, Place(CONTAINERS, x), x);
    RefusedWriteStrands(cfg, s, f, steps, Realms(), 0, Place(CONTAINERS, x), x);
  }

  /** The status write of the first projection fails and the binding is deleted
      next: it is let go, and the deployment stays bound. */
  lemma LostSecretHere(cfg: Config, x: Sign)
    requires Ordinary(cfg, x)
    ensures var s := Start(Some(MappingTo(cfg.gvr, CONTAINERS)));
      var s' := After(cfg, s, [Reconcile(GOOD.(statusWrite := false)), DeleteBinding, Reconcile(GOOD)]);
      s'.binding.None? && |s'.apps| == 1 && SignCount(s'.apps[0], Place(CONTAINERS, x), x) == 1
  {
    hide PodRealm, AtHome, SelectionFor, MappingTo, Place, InPlace, SignCount, After, Leaves, Removes, Sane, Owns,
      Shows, Untouched;
    var m := Some(MappingTo(cfg.gvr, CONTAINERS));
    Resolves(cfg, CONTAINERS);
    SomeCluster(cfg, m, x);
    var f := GOOD.(statusWrite := false);
    assert f.(statusWrite := true) == GOOD;
    LostSecret(cfg, Start(m), f, GOOD, Realms(), x);
    ContainerKnown(cfg, m, x);
    PlaceKnown(CONTAINERS, x);
    assert Realms()[0] == PodRealm(DEPLOYMENT, SELECTIONS);
  }

  lemma EligibleHere(cfg: Config)
    requires cfg.names == {} && cfg.extra.None?
    ensures Eligible(cfg, DEPLOYMENT) && SelectionFor(cfg, None) == Some(DEFAULT_SELECTION)
  {
    hide PodLists, SelectionFor, Walk, MapList, Plain, PodFamily, ResourceTemplate, PodSelection, PodContainer, AtHome,
      PodRealm, Workable, ListHandles, HandleOf;
    DefaultSelection(cfg);
    SomeDeployment();
    FamilyParts();
    ListsThere(CONTAINERS);
    ListsThere(INIT_CONTAINERS);
  }

  /** A first reconcile brings the binding to both containers. */
  lemma ArrivesHere(cfg: Config)
    requires cfg.names == {} && cfg.extra.None? && cfg.files && cfg.env == []
    ensures var s' := Reconciled(cfg, Start(None), GOOD);
      |s'.apps| == 1 && Arrived(cfg, CREDENTIALS, DEPLOYMENT, s'.apps[0])
  {
    hide Arrived, Reconciled, Eligible, SelectionFor, CleanFor, Undisturbed, SiteOf, HandleOf;
    EligibleHere(cfg);
    var b := BindingFor(cfg, CREDENTIALS);
    assert Variables(b) == [];
    DeploymentFree(b);
    Arrives(cfg, Start(None), GOOD, 0);
  }

  lemma FamilyParts()
    requires PodFamily(DEPLOYMENT, SELECTIONS)
    ensures Plain(DEPLOYMENT) && PodLists(DEPLOYMENT, DEFAULT_SELECTION)
  {
  }

  // ---- The limits of unbinding ----

  lemma NoneNamedThere(b: Binding, list: string)
    requires IsList(list)
    ensures Unused(b, ContainerSlots(DEPLOYMENT, HandleOf(list)))
    ensures AllUnique(Listed(ContainerSlots(DEPLOYMENT, HandleOf(list)).env), SecretKeys(b))
    ensures AllUnique(Listed(ContainerSlots(DEPLOYMENT, HandleOf(list)).env), Variables(b))
  {
    hide HandleOf, ContainerSlots;
    NoLists(list, DEFAULT_SELECTION);
  }

  /** The deployment is free of any binding. */
  lemma DeploymentFree(b: Binding)
    requires Distinct(Variables(b)) && (b.files || b.secret != "")
    ensures Undisturbed(b, DEPLOYMENT, DEFAULT_SELECTION)
    ensures HandleOf(CONTAINERS) in SiteOf(DEPLOYMENT, DEFAULT_SELECTION).cs
    ensures b.files ==> CleanFor(AsEnv, b, DEPLOYMENT, DEFAULT_SELECTION)
  {
    hide HandleOf, ContainerSlots, Unused, AllUnique, Workable, BindablePods, Volumes, PodFamily, AtHome;
    SomeDeployment();
    SiteIs(DEFAULT_SELECTION);
    NoneNamedThere(b, CONTAINERS);
    NoneNamedThere(b, INIT_CONTAINERS);
    NoLists(CONTAINERS, DEFAULT_SELECTION);
  }

  /** A variable that is not named like its key is still there after the
      deployment was bound and unbound. */
  lemma VariableStays(name: string, secret: string, lenient: bool)
    ensures var b := Binding(name, secret, true, [EnvBinding("DATABASE_HOST", "host")]);
      var d := Unbound(b, Bound(b, DEPLOYMENT, DEFAULT_SELECTION, lenient), DEFAULT_SELECTION);
      NonRoot(Listed(ContainerSlots(d, HandleOf(CONTAINERS)).env)) !=
        NonRoot(Listed(ContainerSlots(DEPLOYMENT, HandleOf(CONTAINERS)).env))
  {
    hide NonRoot, Bound, Unbound, ContainerSlots, HandleOf, Undisturbed, CleanFor, SiteOf, Workable;
    var b := Binding(name, secret, true, [EnvBinding("DATABASE_HOST", "host")]);
    assert Variables(b) == ["DATABASE_HOST"] && SecretKeys(b) == ["host"];
    assert "DATABASE_HOST" in Variables(b) && "DATABASE_HOST" !in SecretKeys(b);
    assert |"DATABASE_HOST"| != |BINDING_ROOT_VAR|;
    DeploymentFree(b);
    Undone(b, DEPLOYMENT, DEFAULT_SELECTION, lenient);
  }

  /** Where another binding set SERVICE_BINDING_ROOT first, a variable stands
      behind it and not before it: the workload is not that of the second
      binding alone. */
  lemma RootMoves(lenient: bool)
    ensures var a, b := Binding("a", "sa", true, []), Binding("b", "sb", true, [EnvBinding("VALUE", "key")]);
      var two := Bound(b, Bound(a, DEPLOYMENT, DEFAULT_SELECTION, lenient), DEFAULT_SELECTION, lenient);
      Unbound(a, two, DEFAULT_SELECTION) != Bound(b, DEPLOYMENT, DEFAULT_SELECTION, lenient)
  {
    hide Bound, Unbound, ContainerSlots, HandleOf, Undisturbed, CleanFor, SiteOf, Workable, Parted, OthersKept;
    var a, b := Binding("a", "sa", true, []), Binding("b", "sb", true, [EnvBinding("VALUE", "key")]);
    assert Variables(a) == [] && SecretKeys(a) == [] && Variables(b) == ["VALUE"];
    assert |"VALUE"| != |BINDING_ROOT_VAR|;
    DeploymentFree(a);
    DeploymentFree(b);
    FreeOf(a);
    Independent(a, b, DEPLOYMENT, DEFAULT_SELECTION, lenient);
    NoLists(CONTAINERS, DEFAULT_SELECTION);
    var c := HandleOf(CONTAINERS);
    assert !RootStill(a, b, Listed(ContainerSlots(DEPLOYMENT, c).env));
  }

  lemma FreeOf(b: Binding)
    requires Undisturbed(b, DEPLOYMENT, DEFAULT_SELECTION)
    ensures Workable(DEPLOYMENT, DEFAULT_SELECTION) && UnusedIn(b, DEPLOYMENT, DEFAULT_SELECTION)
    ensures KeysUnique(b, DEPLOYMENT, DEFAULT_SELECTION)
  {
  }
}
