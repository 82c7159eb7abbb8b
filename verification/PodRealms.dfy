/**
 The rebind protocol from the beginning: workloads with pod templates that do
 not yet know the binding, and mappings over the container lists of pod
 templates.
 */
module PodRealms {

  import opened Documents
  import opened Entries
  import opened Pods
  import opened Views
  import opened Projection
  import opened Slots
  import opened Laws
  import opened Templates
  import opened Stored
  import opened Standard
  import opened Signs
  import opened Pipelines
  import opened Protocol
  import opened Rebinding

  /** A stored workload in which all selections find containers and readable lists. */
  ghost predicate PodFamily(doc: Json, sels: set<Selection>)
  {
    Plain(doc) && forall sel :: sel in sels ==> PodSelection(sel) && PodLists(doc, sel)
  }

  ghost function PodTargets(doc: Json, sels: set<Selection>): set<Target>
  {
    set sel, t | sel in sels && t in SiteTargets(SiteOf(doc, sel)) :: t
  }

  ghost function PodRealm(doc: Json, sels: set<Selection>): Realm
  {
    Realm(PodTargets(doc, sels), map sel | sel in sels :: SiteOf(doc, sel).cs)
  }

  lemma FamilySite(doc: Json, sels: set<Selection>, sel: Selection)
    requires PodFamily(doc, sels) && sel in sels
    ensures PodSite(doc, sel) && PodLists(doc, sel)
  {
  }

  lemma FamilyTidy(doc: Json, sels: set<Selection>)
    requires PodFamily(doc, sels)
    ensures Tidy(doc, PodTargets(doc, sels), sels)
  {
    hide PodFamily, PodLists, PodSite, PodSelection, SiteTargets, SiteOf, Calm, Comparable, CanPut, Read;
    var ts := PodTargets(doc, sels);
    forall t, u | t in ts && u in ts && t != u ensures !Comparable(t.loc, u.loc) {
      var one :| one in sels && t in SiteTargets(SiteOf(doc, one));
      var two :| two in sels && u in SiteTargets(SiteOf(doc, two));
      FamilySite(doc, sels, one);
      FamilySite(doc, sels, two);
      PodApart(doc, one, two, t, u);
    }
    forall t | t in ts ensures t.loc != [] && t.loc[|t.loc| - 1].Key? && Editable(doc, t.loc, t.kind) {
      var sel :| sel in sels && t in SiteTargets(SiteOf(doc, sel));
      FamilySite(doc, sels, sel);
      PodReadable(doc, sel, t);
      FamilySelection(doc, sels, sel);
      PodCalm(doc, sel, sel, t);
    }
    forall t, other | t in ts && other in sels ensures Calm(doc, other, t.loc) {
      var sel :| sel in sels && t in SiteTargets(SiteOf(doc, sel));
      FamilySite(doc, sels, sel);
      FamilySelection(doc, sels, other);
      PodCalm(doc, sel, other, t);
    }
  }

  lemma FamilySelection(doc: Json, sels: set<Selection>, sel: Selection)
    requires PodFamily(doc, sels) && sel in sels
    ensures PodSelection(sel)
  {
  }

  lemma FamilyFits(doc: Json, sels: set<Selection>, sel: Selection)
    requires PodFamily(doc, sels) && sel in sels
    ensures BindablePods(doc, sel) == Some(SiteOf(doc, sel).cs)
    ensures Fits(ViewOf(doc, PodTargets(doc, sels)), SiteOf(doc, sel))
  {
    hide PodSelection, Read, BindablePods;
    var site := SiteOf(doc, sel);
    var v := ViewOf(doc, PodTargets(doc, sels));
    forall t | t in SiteTargets(site) ensures t in v { assert t in PodTargets(doc, sels); }
    assert VolumeT(sel) in SiteTargets(site);
    forall c | c in site.cs ensures Covers(v, c) {
      OwnTargets(site.cs, c);
    }
  }

  /** Such a workload is at home with all these selections. */
  lemma PodAtHome(doc: Json, sels: set<Selection>)
    requires PodFamily(doc, sels)
    ensures AtHome(doc, PodRealm(doc, sels))
  {
    hide Tidy, Fits, PodLists, PodSelection, BindablePods, Plain;
    var r := PodRealm(doc, sels);
    FamilyTidy(doc, sels);
    assert r.sites.Keys == sels;
    forall sel | sel in r.sites ensures Ready(doc, r.ts, r.sites.Keys, Site(sel, r.sites[sel])) {
      FamilyFits(doc, sels, sel);
      assert Site(sel, r.sites[sel]) == SiteOf(doc, sel);
    }
  }

  ghost function PodRealmsOf(apps: seq<Json>, sels: set<Selection>): seq<Realm>
  {
    seq(|apps|, k requires 0 <= k < |apps| => PodRealm(apps[k], sels))
  }

  /** The selection of a mapping is one of the family. */
  ghost predicate Known(cfg: Config, m: Option<ResourceMapping>, sels: set<Selection>)
  {
    SelectionFor(cfg, m).Some? && SelectionFor(cfg, m).value in sels
  }

  lemma KnownCharted(cfg: Config, m: Option<ResourceMapping>, apps: seq<Json>, sels: set<Selection>)
    requires Known(cfg, m, sels)
    ensures Charted(cfg, m, PodRealmsOf(apps, sels))
  {
    hide SelectionFor;
  }

  /** Workloads that do not know the binding, and a binding that is not yet processed. */
  ghost predicate Untouched(cfg: Config, s: Cluster, sels: set<Selection>)
  {
    && Known(cfg, s.mapping, sels)
    && (s.binding.Some? ==> s.binding.value.annotation.None? && s.binding.value.secret == "")
    && forall k :: 0 <= k < |s.apps| ==> PodFamily(s.apps[k], sels)
  }

  lemma UntouchedHoused(cfg: Config, s: Cluster, sels: set<Selection>)
    requires Untouched(cfg, s, sels)
    ensures Housed(s, PodRealmsOf(s.apps, sels))
    ensures Charted(cfg, s.mapping, PodRealmsOf(s.apps, sels))
  {
    hide PodFamily, PodRealm, AtHome, SelectionFor;
    forall k | 0 <= k < |s.apps| ensures AtHome(s.apps[k], PodRealm(s.apps[k], sels)) { PodAtHome(s.apps[k], sels); }
    KnownCharted(cfg, s.mapping, s.apps, sels);
  }

  lemma UntouchedInPlace(cfg: Config, s: Cluster, sels: set<Selection>, x: Sign)
    requires Sane(cfg.env, x) && Untouched(cfg, s, sels)
    requires forall k :: 0 <= k < |s.apps| ==> NotBound(s.apps[k], PodRealm(s.apps[k], sels), x)
    ensures InPlace(cfg, s, PodRealmsOf(s.apps, sels), x)
  {
    hide PodFamily, PodRealm, AtHome, SelectionFor, NotBound, Placed, Sane, Removes;
    UntouchedHoused(cfg, s, sels);
    var realms := PodRealmsOf(s.apps, sels);
    if s.binding.Some? {
      forall k | 0 <= k < |realms| ensures Placed(s.apps[k], realms[k], x, SiteFor(cfg, s.mapping, realms[k])) {
        NotBoundPlaced(s.apps[k], realms[k], x, SiteFor(cfg, s.mapping, realms[k]));
      }
    }
  }

  /** From untouched workloads, in every orderly run over mappings of the family,
      the signs of a binding are only at places of the mapping in force. */
  lemma PodRuns(cfg: Config, s: Cluster, sels: set<Selection>, steps: seq<Event>, x: Sign)
    requires Sane(cfg.env, x) && Untouched(cfg, s, sels)
    requires forall k :: 0 <= k < |s.apps| ==> NotBound(s.apps[k], PodRealm(s.apps[k], sels), x)
    requires OrderlyRun(cfg, s, steps, PodRealmsOf(s.apps, sels), x)
    ensures InPlace(cfg, After(cfg, s, steps), PodRealmsOf(s.apps, sels), x)
  {
    hide PodRealmsOf, InPlace, OrderlyRun, Untouched, Sane;
    UntouchedInPlace(cfg, s, sels, x);
    RunInPlace(cfg, s, steps, PodRealmsOf(s.apps, sels), x);
  }
}
