/**
 Projection and removal as whole reconcile passes over stored workloads: the
 document is read from the cluster, edited in memory, and written back.
 */
module Stored {

  import opened Documents
  import opened Entries
  import opened Pods
  import opened Views
  import opened Projection
  import opened Slots
  import opened Laws

  /** The workload that one projecting pass stores. */
  function Bound(b: Binding, doc: Json, sel: Selection, lenient: bool): Json
  {
    Norm(ProjectDoc(b, doc, sel, lenient).doc)
  }

  /** The workload that one unbinding pass stores. */
  function Unbound(b: Binding, doc: Json, sel: Selection): Json
  {
    Norm(UnbindDoc(b, doc, sel).doc)
  }

  lemma BoundRefines(b: Binding, doc: Json, ts: set<Target>, sels: set<Selection>, site: Site, lenient: bool)
    requires Plain(doc) && Ready(doc, ts, sels, site)
    ensures var d := Bound(b, doc, site.sel, lenient);
      && Plain(d) && Follows(doc, d, ts, sels) && Ready(d, ts, sels, site)
      && ViewOf(d, ts) == ProjectV(b, ViewOf(doc, ts), site)
  {
    ProjectRefines(b, doc, ts, sels, site, lenient);
    NormFollows(doc, ProjectDoc(b, doc, site.sel, lenient).doc, ts, sels);
    ReadyKept(doc, Bound(b, doc, site.sel, lenient), ts, sels, site);
  }

  lemma UnboundRefines(b: Binding, doc: Json, ts: set<Target>, sels: set<Selection>, site: Site)
    requires Plain(doc) && Ready(doc, ts, sels, site)
    ensures UnbindDoc(b, doc, site.sel).UnbindDone?
    ensures var d := Unbound(b, doc, site.sel);
      && Plain(d) && Follows(doc, d, ts, sels) && Ready(d, ts, sels, site)
      && ViewOf(d, ts) == UnbindV(b, ViewOf(doc, ts), site)
  {
    UnbindRefines(b, doc, ts, sels, site);
    NormFollows(doc, UnbindDoc(b, doc, site.sel).doc, ts, sels);
    ReadyKept(doc, Unbound(b, doc, site.sel), ts, sels, site);
  }

  // ---- What a pass does to each container ----

  lemma SweepOnce(act: Action, b: Binding, v: View, cs: seq<MetaContainer>, c: MetaContainer)
    requires CoversAll(v, cs) && Coherent(cs) && c in cs
    requires Readable(SlotsOf(v, c)) && Clean(act, b, SlotsOf(v, c))
    ensures SlotsOf(SweepV(act, b, v, cs), c) == SlotStep(act, b, SlotsOf(v, c))
  {
    SweepSlots(act, b, v, cs, c);
    RepeatOnce(act, b, SlotsOf(v, c), Visits(cs, c));
  }

  lemma AsEnvReadable(b: Binding, s: Slots)
    requires Readable(s)
    ensures Readable(SlotStep(AsEnv, b, s))
  {
    var _ := AddEnvResult(b, s.env);
  }

  lemma PassSlots(b: Binding, v: View, site: Site, c: MetaContainer)
    requires Fits(v, site) && Coherent(site.cs) && c in site.cs
    requires Readable(SlotsOf(v, c)) && Clean(AsEnv, b, SlotsOf(v, c))
    ensures SlotsOf(ProjectV(b, v, site), c) == BindSlots(b, SlotsOf(v, c))
  {
    var s := SlotsOf(v, c);
    var w := if b.files && b.env == [] then v else SweepV(AsEnv, b, v, site.cs);
    if !(b.files && b.env == []) {
      SweepOnce(AsEnv, b, v, site.cs, c);
      AsEnvReadable(b, s);
    }
    if b.files {
      var x := Edit(w, VolumeT(site.sel), Upsert(b.name, VolumeEntry(b)));
      assert SlotsOf(x, c) == SlotsOf(w, c);
      SweepOnce(AsFiles, b, x, site.cs, c);
    }
  }

  lemma PassVolumes(b: Binding, v: View, site: Site)
    requires Fits(v, site)
    ensures ProjectV(b, v, site)[VolumeT(site.sel)] ==
      if b.files then Run(Volume, Upsert(b.name, VolumeEntry(b)), v[VolumeT(site.sel)]) else v[VolumeT(site.sel)]
  {
    var t := VolumeT(site.sel);
    var w := if b.files && b.env == [] then v else SweepV(AsEnv, b, v, site.cs);
    SweepOther(AsEnv, b, v, site.cs, t);
    if b.files {
      SweepOther(AsFiles, b, Edit(w, t, Upsert(b.name, VolumeEntry(b))), site.cs, t);
    }
  }

  lemma UnbindSlots(b: Binding, v: View, site: Site, c: MetaContainer)
    requires Fits(v, site) && Coherent(site.cs) && c in site.cs
    requires Readable(SlotsOf(v, c)) && Clean(Removal, b, SlotsOf(v, c))
    ensures SlotsOf(UnbindV(b, v, site), c) == SlotStep(Removal, b, SlotsOf(v, c))
  {
    var x := Edit(v, VolumeT(site.sel), Drop(b.name));
    assert SlotsOf(x, c) == SlotsOf(v, c);
    SweepOnce(Removal, b, x, site.cs, c);
  }

  lemma UnbindVolumes(b: Binding, v: View, site: Site)
    requires Fits(v, site)
    ensures UnbindV(b, v, site)[VolumeT(site.sel)] == Run(Volume, Drop(b.name), v[VolumeT(site.sel)])
  {
    SweepOther(Removal, b, Edit(v, VolumeT(site.sel), Drop(b.name)), site.cs, VolumeT(site.sel));
  }

  /** The lists of a site, and no others. */
  function SiteTargets(site: Site): set<Target>
  {
    {VolumeT(site.sel)} + ContainerTargets(site.cs)
  }

  function ContainerTargets(cs: seq<MetaContainer>): set<Target>
  {
    if cs == [] then {} else TargetsOf(cs[0]) + ContainerTargets(cs[1..])
  }

  lemma {:induction false} Owner(cs: seq<MetaContainer>, t: Target) returns (c: MetaContainer)
    requires t in ContainerTargets(cs)
    ensures c in cs && t in TargetsOf(c)
  {
    hide TargetsOf;
    if t in TargetsOf(cs[0]) { c := cs[0]; } else { c := Owner(cs[1..], t); }
  }

  lemma {:induction false} OwnTargets(cs: seq<MetaContainer>, c: MetaContainer)
    requires c in cs
    ensures TargetsOf(c) <= ContainerTargets(cs)
    ensures EnvT(c) in ContainerTargets(cs) && EnvFromT(c) in ContainerTargets(cs) && MountT(c) in ContainerTargets(cs)
  {
    if c != cs[0] { OwnTargets(cs[1..], c); }
  }

  lemma SameSlots(v: View, w: View, c: MetaContainer, t: Target)
    requires Covers(v, c) && Covers(w, c) && SlotsOf(v, c) == SlotsOf(w, c) && t in TargetsOf(c)
    ensures v[t] == w[t]
  {
  }

  /** Views of a site agree when its volumes and all its containers do. */
  lemma SameView(v: View, w: View, site: Site)
    requires v.Keys == w.Keys == SiteTargets(site) && Fits(v, site) && Fits(w, site)
    requires v[VolumeT(site.sel)] == w[VolumeT(site.sel)]
    requires forall c :: c in site.cs ==> SlotsOf(v, c) == SlotsOf(w, c)
    ensures v == w
  {
    forall t | t in v ensures v[t] == w[t] {
      if t != VolumeT(site.sel) {
        var c := Owner(site.cs, t);
        SameSlots(v, w, c, t);
      }
    }
  }

  // ---- Workloads the laws speak about ----

  function SiteOf(doc: Json, sel: Selection): Site
  {
    Site(sel, if BindablePods(doc, sel).Some? then BindablePods(doc, sel).value else [])
  }

  /** A stored workload whose containers are found, with separate and readable
      lists that lie apart from where containers are searched. */
  ghost predicate Workable(doc: Json, sel: Selection)
  {
    && Plain(doc)
    && BindablePods(doc, sel).Some?
    && Coherent(SiteOf(doc, sel).cs)
    && Tidy(doc, SiteTargets(SiteOf(doc, sel)), {sel})
  }

  lemma SiteFits(doc: Json, site: Site)
    ensures Fits(ViewOf(doc, SiteTargets(site)), site)
    ensures ViewOf(doc, SiteTargets(site)).Keys == SiteTargets(site)
  {
    forall c | c in site.cs ensures Covers(ViewOf(doc, SiteTargets(site)), c) {
      OwnTargets(site.cs, c);
    }
  }

  lemma WorkableReady(doc: Json, sel: Selection)
    requires Workable(doc, sel)
    ensures Ready(doc, SiteTargets(SiteOf(doc, sel)), {sel}, SiteOf(doc, sel))
    ensures forall c :: c in SiteOf(doc, sel).cs ==> Readable(ContainerSlots(doc, c))
  {
    var site := SiteOf(doc, sel);
    SiteFits(doc, site);
    forall c | c in site.cs ensures Readable(ContainerSlots(doc, c)) {
      OwnTargets(site.cs, c);
    }
  }

  /** The lists of one container, read from the document. */
  function ContainerSlots(doc: Json, c: MetaContainer): Slots
  {
    Slots(Read(doc, EnvT(c).loc, EnvVar), Read(doc, EnvFromT(c).loc, EnvFrom), Read(doc, MountT(c).loc, VolumeMount))
  }

  function Volumes(doc: Json, sel: Selection): Slot
  {
    Read(doc, VolumeT(sel).loc, Volume)
  }

  ghost predicate CleanFor(act: Action, b: Binding, doc: Json, sel: Selection)
  {
    forall c :: c in SiteOf(doc, sel).cs ==> Clean(act, b, ContainerSlots(doc, c))
  }

  /** Everything outside the site's lists is as it was. */
  ghost predicate OthersKept(doc: Json, d: Json, sel: Selection)
  {
    forall q: Loc :: Elsewhere(d, SiteTargets(SiteOf(doc, sel)), q) ==> Walk(d, q) == Walk(doc, q)
  }

  lemma BoundSite(b: Binding, doc: Json, sel: Selection, lenient: bool)
    requires Workable(doc, sel) && CleanFor(AsEnv, b, doc, sel)
    ensures var d := Bound(b, doc, sel, lenient);
      && ProjectDoc(b, doc, sel, lenient).ok
      && Workable(d, sel) && SiteOf(d, sel) == SiteOf(doc, sel)
      && Follows(doc, d, SiteTargets(SiteOf(doc, sel)), {sel})
      && (forall c :: c in SiteOf(doc, sel).cs ==> ContainerSlots(d, c) == BindSlots(b, ContainerSlots(doc, c)))
      && Volumes(d, sel) ==
           if b.files then Run(Volume, Upsert(b.name, VolumeEntry(b)), Volumes(doc, sel)) else Volumes(doc, sel)
  {
    var site := SiteOf(doc, sel);
    var ts := SiteTargets(site);
    var d := Bound(b, doc, sel, lenient);
    WorkableReady(doc, sel);
    ProjectRefines(b, doc, ts, {sel}, site, lenient);
    BoundRefines(b, doc, ts, {sel}, site, lenient);
    PassVolumes(b, ViewOf(doc, ts), site);
    assert ViewOf(d, ts)[VolumeT(sel)] == Volumes(d, sel);
    forall c | c in site.cs ensures ContainerSlots(d, c) == BindSlots(b, ContainerSlots(doc, c)) {
      assert Covers(ViewOf(doc, ts), c);
      PassSlots(b, ViewOf(doc, ts), site, c);
      assert SlotsOf(ViewOf(d, ts), c) == ContainerSlots(d, c);
    }
  }

  lemma UnboundSite(b: Binding, doc: Json, sel: Selection)
    requires Workable(doc, sel) && CleanFor(Removal, b, doc, sel)
    ensures var d := Unbound(b, doc, sel);
      && UnbindDoc(b, doc, sel).UnbindDone?
      && Workable(d, sel) && SiteOf(d, sel) == SiteOf(doc, sel)
      && Follows(doc, d, SiteTargets(SiteOf(doc, sel)), {sel})
      && (forall c :: c in SiteOf(doc, sel).cs ==> ContainerSlots(d, c) == SlotStep(Removal, b, ContainerSlots(doc, c)))
      && Volumes(d, sel) == Run(Volume, Drop(b.name), Volumes(doc, sel))
  {
    var site := SiteOf(doc, sel);
    var ts := SiteTargets(site);
    var d := Unbound(b, doc, sel);
    WorkableReady(doc, sel);
    UnboundRefines(b, doc, ts, {sel}, site);
    UnbindVolumes(b, ViewOf(doc, ts), site);
    assert ViewOf(d, ts)[VolumeT(sel)] == Volumes(d, sel);
    forall c | c in site.cs ensures ContainerSlots(d, c) == SlotStep(Removal, b, ContainerSlots(doc, c)) {
      assert Covers(ViewOf(doc, ts), c);
      UnbindSlots(b, ViewOf(doc, ts), site, c);
      assert SlotsOf(ViewOf(d, ts), c) == ContainerSlots(d, c);
    }
  }

  /** Two stored results of the same workload with equal lists are equal. */
  lemma SameStored(doc: Json, d: Json, e: Json, sel: Selection, other: Selection)
    requires Plain(d) && Plain(e)
    requires Follows(doc, d, SiteTargets(SiteOf(doc, sel)), {sel})
    requires Follows(doc, e, SiteTargets(SiteOf(doc, sel)), {other})
    requires forall c :: c in SiteOf(doc, sel).cs ==> ContainerSlots(d, c) == ContainerSlots(e, c)
    requires Volumes(d, sel) == Volumes(e, sel)
    ensures d == e
  {
    var site := SiteOf(doc, sel);
    var ts := SiteTargets(site);
    SiteFits(d, site);
    SiteFits(e, site);
    var v, w := ViewOf(d, ts), ViewOf(e, ts);
    forall c | c in site.cs ensures SlotsOf(v, c) == SlotsOf(w, c) {
      assert Covers(v, c) && Covers(w, c);
      assert SlotsOf(v, c) == ContainerSlots(d, c) && SlotsOf(w, c) == ContainerSlots(e, c);
    }
    assert v[VolumeT(sel)] == Volumes(d, sel) && w[VolumeT(sel)] == Volumes(e, sel);
    SameView(v, w, site);
    Determined(doc, d, e, ts, {sel}, {other});
  }
}
