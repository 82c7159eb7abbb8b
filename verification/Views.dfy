/**
 A workload seen through the lists that are edited: a view maps each edited
 list to what it holds. Edits of separate lists of a document refine edits of
 its view, and a stored document is determined by its view and by the document
 it was edited from.
 */
module Views {

  import opened Documents
  import opened Entries
  import opened Pods

  datatype Target = Target(loc: Loc, kind: Kind)

  type View = map<Target, Slot>

  function ViewOf(doc: Json, ts: set<Target>): View
  {
    map t | t in ts :: Read(doc, t.loc, t.kind)
  }

  function Edit(v: View, t: Target, op: Op): View
    requires t in v
  {
    v[t := Run(t.kind, op, v[t])]
  }

  /** The edited lists are separate, readable and writable, and editing them
      does not move the containers of any selection. */
  ghost predicate Tidy(doc: Json, ts: set<Target>, sels: set<Selection>)
  {
    && (forall t, u :: t in ts && u in ts && t != u ==> !Comparable(t.loc, u.loc))
    && (forall t :: t in ts ==> t.loc != [] && t.loc[|t.loc| - 1].Key? && Editable(doc, t.loc, t.kind))
    && (forall t, sel :: t in ts && sel in sels ==> Calm(doc, sel, t.loc))
  }

  /** The lists hold nothing but stored values. */
  ghost predicate PlainLists(doc: Json, ts: set<Target>)
  {
    forall t :: t in ts ==> PlainSlot(Read(doc, t.loc, t.kind))
  }

  /** `q` is unrelated to every list that `d` holds. */
  ghost predicate Elsewhere(d: Json, ts: set<Target>, q: Loc)
  {
    forall t :: t in ts && Walk(d, t.loc).Found? ==> !Comparable(t.loc, q)
  }

  /** `d` came from `doc` by edits of the lists `ts` alone. */
  ghost predicate Follows(doc: Json, d: Json, ts: set<Target>, sels: set<Selection>)
  {
    && Tidy(d, ts, sels)
    && (forall sel :: sel in sels ==> Alike(doc, d, Visited(doc, sel)))
    && (forall t :: t in ts && Walk(doc, t.loc).Found? ==> Walk(d, t.loc).Found?)
    && (forall q: Loc :: Elsewhere(d, ts, q) ==> Walk(d, q) == Walk(doc, q))
    && (PlainLists(doc, ts) ==> PlainLists(d, ts))
  }

  lemma FollowsSelf(doc: Json, ts: set<Target>, sels: set<Selection>)
    requires Tidy(doc, ts, sels)
    ensures Follows(doc, doc, ts, sels)
  {
  }

  lemma FollowsTrans(doc: Json, d: Json, e: Json, ts: set<Target>, sels: set<Selection>)
    requires Follows(doc, d, ts, sels) && Follows(d, e, ts, sels)
    ensures Follows(doc, e, ts, sels)
  {
    forall sel | sel in sels ensures Alike(doc, e, Visited(doc, sel)) {
      PodsAlike(doc, d, sel);
    }
    forall q: Loc | Elsewhere(e, ts, q) ensures Walk(e, q) == Walk(doc, q) {
      assert Elsewhere(d, ts, q);
    }
  }

  /** The containers are where they were. */
  lemma FollowsPods(doc: Json, d: Json, ts: set<Target>, sels: set<Selection>, sel: Selection)
    requires Follows(doc, d, ts, sels) && sel in sels
    ensures BindablePods(d, sel) == BindablePods(doc, sel)
  {
    PodsAlike(doc, d, sel);
  }

  lemma PutCalm(doc: Json, ts: set<Target>, t: Target, x: Json, sel: Selection)
    requires CanPut(doc, t.loc) && t in ts && t.loc != [] && t.loc[|t.loc| - 1].Key?
    requires forall u :: u in ts ==> Calm(doc, sel, u.loc)
    ensures Alike(doc, Put(doc, t.loc, x), Visited(doc, sel))
    ensures forall u :: u in ts ==> Calm(Put(doc, t.loc, x), sel, u.loc)
  {
    PutSteady(doc, t.loc, x, sel);
    PodsAlike(doc, Put(doc, t.loc, x), sel);
    CalmKept(doc, Put(doc, t.loc, x), ts, sel);
  }

  lemma PutFollows(doc: Json, d: Json, ts: set<Target>, sels: set<Selection>, t: Target, x: Json)
    requires Tidy(doc, ts, sels) && t in ts
    requires d == Put(doc, t.loc, x) && Editable(d, t.loc, t.kind) && Walk(d, t.loc).Found?
    requires PlainSlot(Read(doc, t.loc, t.kind)) ==> PlainSlot(Read(d, t.loc, t.kind))
    requires forall q: Loc | !Comparable(t.loc, q) ::
      Walk(d, q) == Walk(doc, q) && (CanPut(d, q) <==> CanPut(doc, q))
    ensures Follows(doc, d, ts, sels)
    ensures forall u | u in ts && u != t :: Read(d, u.loc, u.kind) == Read(doc, u.loc, u.kind)
  {
    hide Calm, Alike, Visited, Put;
    forall u | u in ts && u != t
      ensures Read(d, u.loc, u.kind) == Read(doc, u.loc, u.kind) && Editable(d, u.loc, u.kind)
    {
      assert Walk(d, u.loc) == Walk(doc, u.loc);
    }
    forall sel | sel in sels
      ensures Alike(doc, d, Visited(doc, sel)) && forall u :: u in ts ==> Calm(d, sel, u.loc)
    {
      PutCalm(doc, ts, t, x, sel);
    }
  }

  lemma ViewEdit(doc: Json, d: Json, ts: set<Target>, t: Target, op: Op)
    requires t in ts && Read(d, t.loc, t.kind) == Run(t.kind, op, Read(doc, t.loc, t.kind))
    requires forall u | u in ts && u != t :: Read(d, u.loc, u.kind) == Read(doc, u.loc, u.kind)
    ensures ViewOf(d, ts) == Edit(ViewOf(doc, ts), t, op)
  {
  }

  /** One edit of the document is one edit of its view. */
  lemma ApplyFollows(doc: Json, ts: set<Target>, sels: set<Selection>, t: Target, op: Op)
    requires Tidy(doc, ts, sels) && t in ts && Sound(t.kind, op)
    ensures var o := Apply(doc, t.loc, t.kind, op);
      o.ok && Follows(doc, o.doc, ts, sels) && ViewOf(o.doc, ts) == Edit(ViewOf(doc, ts), t, op)
  {
    var o := Apply(doc, t.loc, t.kind, op);
    assert Editable(doc, t.loc, t.kind);
    var x := ApplyEffect(doc, t.loc, t.kind, op);
    RunKeeps(t.kind, op, Read(doc, t.loc, t.kind));
    if o.doc == doc {
      FollowsSelf(doc, ts, sels);
    } else {
      PutFollows(doc, o.doc, ts, sels, t, x);
    }
    ViewEdit(doc, o.doc, ts, t, op);
  }

  lemma CalmKept(doc: Json, d: Json, ts: set<Target>, sel: Selection)
    requires Visited(d, sel) == Visited(doc, sel) && Alike(doc, d, Visited(doc, sel))
    requires forall t :: t in ts ==> Calm(doc, sel, t.loc)
    ensures forall t :: t in ts ==> Calm(d, sel, t.loc)
  {
    var ls := Visited(doc, sel);
    forall l | l in ls ensures Walk(d, l).Found? <==> Walk(doc, l).Found? {
      assert ShapeAt(d, l) == ShapeAt(doc, l);
    }
  }

  lemma PlainListsOf(doc: Json, ts: set<Target>)
    requires Plain(doc)
    ensures PlainLists(doc, ts)
  {
    forall t | t in ts ensures PlainSlot(Read(doc, t.loc, t.kind)) { ReadPlain(doc, t.loc, t.kind); }
  }

  lemma NormLists(d: Json, ts: set<Target>)
    requires PlainLists(d, ts) && forall t :: t in ts ==> Editable(d, t.loc, t.kind)
    ensures ViewOf(Norm(d), ts) == ViewOf(d, ts) && PlainLists(Norm(d), ts)
    ensures forall t :: t in ts ==> Editable(Norm(d), t.loc, t.kind)
    ensures forall t :: t in ts ==> (Walk(Norm(d), t.loc).Found? <==> Walk(d, t.loc).Found?)
  {
    hide Norm, PlainSlot;
    forall t | t in ts
      ensures Read(Norm(d), t.loc, t.kind) == Read(d, t.loc, t.kind) && Editable(Norm(d), t.loc, t.kind)
      ensures Walk(Norm(d), t.loc).Found? <==> Walk(d, t.loc).Found?
    {
      ReadNorm(d, t.loc, t.kind);
      WalkNorm(d, t.loc);
    }
  }

  lemma NormCalm(doc: Json, d: Json, ts: set<Target>, sel: Selection)
    requires Plain(doc) && Alike(doc, d, Visited(doc, sel))
    requires forall t :: t in ts ==> Calm(d, sel, t.loc)
    ensures Alike(doc, Norm(d), Visited(doc, sel))
    ensures forall t :: t in ts ==> Calm(Norm(d), sel, t.loc)
  {
    NormSteady(doc, d, sel);
    PodsAlike(doc, Norm(d), sel);
    PodsAlike(doc, d, sel);
    CalmBack(doc, d, Norm(d), ts, sel);
  }

  /** Writing back changes neither the view nor what was left alone. */
  lemma NormFollows(doc: Json, d: Json, ts: set<Target>, sels: set<Selection>)
    requires Plain(doc) && Follows(doc, d, ts, sels)
    ensures Plain(Norm(d)) && Follows(doc, Norm(d), ts, sels) && ViewOf(Norm(d), ts) == ViewOf(d, ts)
  {
    hide Calm, Alike, Visited, Norm, Read, PlainSlot;
    NormPlain(d);
    PlainListsOf(doc, ts);
    NormLists(d, ts);
    forall sel | sel in sels
      ensures Alike(doc, Norm(d), Visited(doc, sel)) && forall t :: t in ts ==> Calm(Norm(d), sel, t.loc)
    {
      NormCalm(doc, d, ts, sel);
    }
    forall q: Loc | Elsewhere(Norm(d), ts, q) ensures Walk(Norm(d), q) == Walk(doc, q) {
      assert Elsewhere(d, ts, q);
      WalkNorm(d, q);
      WalkNorm(doc, q);
    }
  }

  lemma CalmBack(doc: Json, d: Json, e: Json, ts: set<Target>, sel: Selection)
    requires Visited(d, sel) == Visited(doc, sel) == Visited(e, sel)
    requires Alike(doc, d, Visited(doc, sel)) && Alike(doc, e, Visited(doc, sel))
    requires forall t :: t in ts ==> Calm(d, sel, t.loc)
    ensures forall t :: t in ts ==> Calm(e, sel, t.loc)
  {
    var ls := Visited(doc, sel);
    forall l | l in ls ensures ShapeAt(e, l) == ShapeAt(d, l) {
      assert ShapeAt(d, l) == ShapeAt(doc, l);
      assert ShapeAt(e, l) == ShapeAt(doc, l);
    }
    assert Alike(d, e, Visited(d, sel));
    CalmKept(d, e, ts, sel);
  }

  /** Two stored documents edited from the same one at the same lists, with
      the same view, are equal. */
  lemma Determined(doc: Json, d: Json, e: Json, ts: set<Target>, sels: set<Selection>, others: set<Selection>)
    requires Plain(d) && Plain(e)
    requires Follows(doc, d, ts, sels) && Follows(doc, e, ts, others)
    requires ViewOf(d, ts) == ViewOf(e, ts)
    ensures d == e
  {
    forall t | t in ts ensures Walk(d, t.loc) == Walk(e, t.loc) {
      assert ViewOf(d, ts)[t] == ViewOf(e, ts)[t];
      ReadPlain(d, t.loc, t.kind);
      ReadPlain(e, t.loc, t.kind);
    }
    var found := set t | t in ts && Walk(d, t.loc).Found? :: t.loc;
    forall q: Loc | Apart(q, found) ensures Walk(d, q) == Walk(e, q) {
      forall t | t in ts && Walk(d, t.loc).Found? ensures !Comparable(t.loc, q) {
        assert t.loc in found;
      }
      assert Elsewhere(d, ts, q) && Elsewhere(e, ts, q);
    }
    Cover(d, e, found);
  }
}
