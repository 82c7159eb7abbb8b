/**
 When a container's location can stand for the handle on its map: no list that
 is edited lies at or above a container. This is a property of the mapping
 alone, so it holds for every document and stays true while documents are
 edited.
 */
module Anchors {

  import opened Documents
  import opened Entries
  import opened Pods
  import opened Views
  import opened Projection
  import opened Templates
  import opened Applications
  import opened Standard

  predicate Compatible(a: PathNode, b: PathNode)
  {
    (a.AllItems? && b.AllItems?) || (a.Field? && b.Field? && a.name == b.name)
  }

  /** Some location along `q` may lie at or above one along `r`. */
  predicate Reaches(q: seq<PathNode>, r: seq<PathNode>)
  {
    |q| <= |r| && forall j :: 0 <= j < |q| ==> Compatible(q[j], r[j])
  }

  lemma AlongReaches(t: Loc, q: seq<PathNode>, c: Loc, r: seq<PathNode>)
    requires Along(t, q) && Along(c, r) && t <= c
    ensures Reaches(q, r)
  {
    forall j | 0 <= j < |q| ensures Compatible(q[j], r[j]) { assert t[j] == c[j]; }
  }

  function Fields(names: seq<string>): seq<PathNode>
  {
    seq(|names|, i requires 0 <= i < |names| => Field(names[i]))
  }

  lemma AlongFields(l: Loc, nodes: seq<PathNode>, names: seq<string>)
    requires Along(l, nodes)
    ensures Along(l + Keys(names), nodes + Fields(names))
  {
  }

  /** Where the containers of a path are: at its results, or in the lists that
      its results are. */
  predicate FollowsPath(l: Loc, path: seq<PathNode>)
  {
    Along(l, path) || Along(l, path + [AllItems])
  }

  /** The list at `names` under a container of path `p` is never at or above a
      container of path `r`. */
  predicate Clear(p: seq<PathNode>, names: seq<string>, r: seq<PathNode>)
  {
    && !Reaches(p + Fields(names), r) && !Reaches(p + [AllItems] + Fields(names), r)
    && !Reaches(p + Fields(names), r + [AllItems]) && !Reaches(p + [AllItems] + Fields(names), r + [AllItems])
  }

  lemma ClearLocs(d: Loc, p: seq<PathNode>, names: seq<string>, c: Loc, r: seq<PathNode>)
    requires Clear(p, names, r) && FollowsPath(d, p) && FollowsPath(c, r)
    ensures !(d + Keys(names) <= c)
  {
    if Along(d, p) { AlongFields(d, p, names); } else { AlongFields(d, p + [AllItems], names); }
    var q := if Along(d, p) then p + Fields(names) else p + [AllItems] + Fields(names);
    var s := if Along(c, r) then r else r + [AllItems];
    if d + Keys(names) <= c { AlongReaches(d + Keys(names), q, c, s); }
  }

  predicate ClearOf(a: WorkloadContainer, b: WorkloadContainer)
  {
    Clear(a.path, a.env, b.path) && Clear(a.path, a.envFrom, b.path) && Clear(a.path, a.volumeMounts, b.path)
  }

  predicate VolumeClear(volume: seq<string>, b: WorkloadContainer)
  {
    !Reaches(Fields(volume), b.path) && !Reaches(Fields(volume), b.path + [AllItems])
  }

  /** The edited lists of a mapping and its containers do not overlap. */
  predicate Separated(m: WorkloadMapping)
  {
    && (forall i, j :: 0 <= i < |m.containers| && 0 <= j < |m.containers| ==> ClearOf(m.containers[i], m.containers[j]))
    && (forall j :: 0 <= j < |m.containers| ==> VolumeClear(m.volume, m.containers[j]))
  }

  // ---- Handles ----

  predicate HandleUnder(c: MetaContainer, wc: WorkloadContainer)
  {
    FollowsPath(c.loc, wc.path) && c == MetaContainer(c.loc, wc.env, wc.envFrom, wc.volumeMounts)
  }

  predicate AllOf(cs: seq<MetaContainer>, wc: WorkloadContainer)
  {
    forall i :: 0 <= i < |cs| ==> HandleUnder(cs[i], wc)
  }

  lemma LocatedFollows(doc: Json, l: Loc, path: seq<PathNode>)
    requires Along(l, path) && Located(doc, l).Some?
    ensures forall i :: 0 <= i < |Located(doc, l).value| ==> FollowsPath(Located(doc, l).value[i], path)
  {
    var maps := Located(doc, l).value;
    forall i | 0 <= i < |maps| ensures FollowsPath(maps[i], path) {
      if maps[i] != l {
        var full := path + [AllItems];
        assert full[..|l|] == path && full[..|l| + 1] == full && full[|l|] == AllItems;
        AlongStep(l, full, At(i));
      }
    }
  }

  lemma {:induction false} HandlesFollow(doc: Json, sel: Selection, wc: WorkloadContainer, ls: seq<Loc>)
    requires forall i :: 0 <= i < |ls| ==> FollowsPath(ls[i], wc.path)
    ensures AllOf(Handles(doc, sel, wc, ls), wc)
  {
    hide FollowsPath, NameAt;
    if ls != [] { HandlesFollow(doc, sel, wc, ls[1..]); }
  }

  lemma {:induction false} ResultsFollow(doc: Json, sel: Selection, wc: WorkloadContainer, ls: seq<Loc>)
    requires AllAlong(ls, wc.path) && FromResults(doc, sel, wc, ls).Some?
    ensures AllOf(FromResults(doc, sel, wc, ls).value, wc)
  {
    hide Along, Located, Handles, FollowsPath;
    if ls != [] {
      assert Along(ls[0], wc.path);
      LocatedFollows(doc, ls[0], wc.path);
      HandlesFollow(doc, sel, wc, Located(doc, ls[0]).value);
      ResultsFollow(doc, sel, wc, ls[1..]);
    }
  }

  /** Every handle belongs to one of the container paths. */
  predicate FoundBy(c: MetaContainer, wcs: seq<WorkloadContainer>)
  {
    exists i :: 0 <= i < |wcs| && HandleUnder(c, wcs[i])
  }

  lemma {:induction false} PathsFollow(doc: Json, sel: Selection, wcs: seq<WorkloadContainer>)
    requires FromPaths(doc, sel, wcs).Some?
    ensures forall k :: 0 <= k < |FromPaths(doc, sel, wcs).value| ==> FoundBy(FromPaths(doc, sel, wcs).value[k], wcs)
  {
    hide Along, Eval, FromResults, HandleUnder;
    if wcs != [] {
      var path := wcs[0].path;
      var ls := Eval(doc, [[]], path);
      var here := if ls.Some? then FromResults(doc, sel, wcs[0], ls.value).value else [];
      assert AllOf(here, wcs[0]) by {
        if ls.Some? {
          StartAlong(path);
          assert path[0..] == path;
          EvalAlong(doc, [[]], path, 0);
          ResultsFollow(doc, sel, wcs[0], ls.value);
        }
      }
      PathsFollow(doc, sel, wcs[1..]);
      var rest := FromPaths(doc, sel, wcs[1..]).value;
      forall k | 0 <= k < |here + rest| ensures FoundBy((here + rest)[k], wcs) {
        if k < |here| {
          assert HandleUnder(here[k], wcs[0]);
        } else {
          assert FoundBy(rest[k - |here|], wcs[1..]);
          var i :| 0 <= i < |wcs[1..]| && HandleUnder(rest[k - |here|], wcs[1..][i]);
          assert HandleUnder(rest[k - |here|], wcs[i + 1]);
        }
      }
    }
  }

  lemma ListedApart(m: WorkloadMapping, c: MetaContainer, d: MetaContainer)
    requires Separated(m) && FoundBy(c, m.containers) && FoundBy(d, m.containers)
    ensures !(EnvT(d).loc <= c.loc) && !(EnvFromT(d).loc <= c.loc) && !(MountT(d).loc <= c.loc)
    ensures !(Keys(m.volume) <= c.loc)
  {
    hide Along, Clear;
    var i :| 0 <= i < |m.containers| && HandleUnder(c, m.containers[i]);
    var j :| 0 <= j < |m.containers| && HandleUnder(d, m.containers[j]);
    var a, b := m.containers[j], m.containers[i];
    assert ClearOf(a, b);
    ClearLocs(d.loc, a.path, a.env, c.loc, b.path);
    ClearLocs(d.loc, a.path, a.envFrom, c.loc, b.path);
    ClearLocs(d.loc, a.path, a.volumeMounts, c.loc, b.path);
    VolumeApart(m.volume, b, c);
  }

  lemma VolumeApart(volume: seq<string>, b: WorkloadContainer, c: MetaContainer)
    requires VolumeClear(volume, b) && HandleUnder(c, b)
    ensures !(Keys(volume) <= c.loc)
  {
    AlongFields([], [], volume);
    assert [] + Keys(volume) == Keys(volume) && [] + Fields(volume) == Fields(volume);
    if Keys(volume) <= c.loc {
      AlongReaches(Keys(volume), Fields(volume), c.loc, if Along(c.loc, b.path) then b.path else b.path + [AllItems]);
    }
  }

  /** A separated mapping anchors the containers of every document. */
  lemma SeparatedAnchors(doc: Json, sel: Selection)
    requires doc.Obj? && Separated(sel.mapping)
    ensures Anchored(doc, sel)
  {
    hide Separated, FoundBy, FromPaths;
    var pods := BindablePods(doc, sel);
    if pods.Some? {
      PathsFollow(doc, sel, sel.mapping.containers);
      forall c, d | c in pods.value && d in pods.value
        ensures !(EnvT(d).loc <= c.loc) && !(EnvFromT(d).loc <= c.loc) && !(MountT(d).loc <= c.loc)
        ensures !(VolumeT(sel).loc <= c.loc)
      {
        ListedApart(sel.mapping, c, d);
      }
    }
  }

  /** Every mapping over the lists of a pod template is separated, the default
      mapping among them. */
  lemma PodSeparated(sel: Selection)
    requires PodSelection(sel)
    ensures Separated(sel.mapping)
  {
    hide ClearOf, VolumeClear, PodContainer;
    var volume := sel.mapping.volume;
    PodClear(CONTAINERS, CONTAINERS, volume);
    PodClear(CONTAINERS, INIT_CONTAINERS, volume);
    PodClear(INIT_CONTAINERS, CONTAINERS, volume);
    PodClear(INIT_CONTAINERS, INIT_CONTAINERS, volume);
  }

  lemma PodClear(one: string, two: string, volume: seq<string>)
    requires |volume| == 4 && volume[3] != two
    ensures ClearOf(PodContainer(one), PodContainer(two)) && VolumeClear(volume, PodContainer(two))
  {
    var p, r := PodPath(one), PodPath(two);
    LongClear(p, "env", r);
    LongClear(p, "envFrom", r);
    LongClear(p, "volumeMounts", r);
    assert Fields(volume)[3] == Field(volume[3]) && r[3] == Field(two) && (r + [AllItems])[3] == Field(two);
    assert !Compatible(Field(volume[3]), Field(two));
  }

  /** A field of a container is below every container at the same depth. */
  lemma LongClear(p: seq<PathNode>, name: string, r: seq<PathNode>)
    requires |p| == |r|
    ensures Clear(p, [name], r)
  {
    var q := p + Fields([name]);
    assert |q| == |r| + 1 && q[|r|] == Field(name) && (r + [AllItems])[|r|] == AllItems;
    assert !Compatible(Field(name), AllItems);
    assert |p + [AllItems] + Fields([name])| == |r| + 2;
  }
}
