/**
 The four lists of a workload that the operator edits (environment variables,
 environment sources, volume mounts, volumes), read and written in place at a
 location of the document, and the edits as operations on what a list holds.
 */
module Entries {

  import opened Documents

  datatype Kind = EnvVar | EnvFrom | VolumeMount | Volume

  // ---- Conversion to the typed corev1 structure ----

  predicate StringAt(fields: map<string, Json>, k: string)
  {
    k !in fields || fields[k].Null? || fields[k].Str?
  }

  predicate MapAt(fields: map<string, Json>, k: string)
  {
    k !in fields || fields[k].Null? || fields[k].Obj?
  }

  /** `FromUnstructured` into the type of `kind` succeeds. */
  predicate Decodes(kind: Kind, e: Json)
  {
    e.Obj? &&
    match kind
    case EnvVar => StringAt(e.fields, "name") && StringAt(e.fields, "value") && MapAt(e.fields, "valueFrom")
    case EnvFrom =>
      MapAt(e.fields, "secretRef") &&
      ("secretRef" in e.fields && e.fields["secretRef"].Obj? ==> StringAt(e.fields["secretRef"].fields, "name"))
    case VolumeMount => StringAt(e.fields, "name") && StringAt(e.fields, "mountPath")
    case Volume => StringAt(e.fields, "name") && MapAt(e.fields, "secret")
  }

  /** The string a decoded structure holds: null and absent give "". */
  function StringOf(fields: map<string, Json>, k: string): string
  {
    if k in fields && fields[k].Str? then fields[k].text else ""
  }

  /** The test by which an entry is recognised: `NestedString` on `name` or
      `secretRef.name`, except that mounts compare the decoded name. */
  predicate Named(kind: Kind, e: Json, name: string)
  {
    e.Obj? &&
    match kind
    case EnvVar => Walk(e, [Key("name")]) == Found(Str(name))
    case EnvFrom => Walk(e, [Key("secretRef"), Key("name")]) == Found(Str(name))
    case VolumeMount => StringOf(e.fields, "name") == name
    case Volume => Walk(e, [Key("name")]) == Found(Str(name))
  }

  /** How many entries carry the name. */
  function Count(kind: Kind, xs: seq<Json>, name: string): nat
  {
    if xs == [] then 0 else (if Named(kind, xs[0], name) then 1 else 0) + Count(kind, xs[1..], name)
  }

  predicate Has(kind: Kind, xs: seq<Json>, name: string)
  {
    Count(kind, xs, name) > 0
  }

  // ---- Lists in the document ----

  /** What `NestedResources` reports: an error, "not found", or the entries.
      A nil list has no entries; once stored, its field is gone. */
  datatype Slot = Bad | Absent | Gone | Present(entries: seq<Json>)

  predicate AllDecode(kind: Kind, xs: seq<Json>)
  {
    forall i :: 0 <= i < |xs| ==> Decodes(kind, xs[i])
  }

  function Read(doc: Json, t: Loc, kind: Kind): Slot
  {
    match Walk(doc, t)
    case Failed => Bad
    case Missing => Absent
    case Found(Nil) => Gone
    case Found(v) => if v.List? && AllDecode(kind, v.items) then Present(v.items) else Bad
  }

  datatype Outcome = Outcome(doc: Json, ok: bool)

  function SetSlice(doc: Json, t: Loc, slice: Json): Outcome
  {
    if CanPut(doc, t) then Outcome(Put(doc, t, slice), true) else Outcome(doc, false)
  }

  // ---- Edits ----

  function DropFirst(kind: Kind, xs: seq<Json>, name: string): seq<Json>
  {
    if xs == [] then []
    else if Named(kind, xs[0], name) then xs[1..]
    else [xs[0]] + DropFirst(kind, xs[1..], name)
  }

  function Replace(kind: Kind, xs: seq<Json>, name: string, e: Json): seq<Json>
  {
    seq(|xs|, i requires 0 <= i < |xs| => if Named(kind, xs[i], name) then e else xs[i])
  }

  function Upserted(kind: Kind, xs: seq<Json>, name: string, e: Json): seq<Json>
  {
    if Has(kind, xs, name) then Replace(kind, xs, name, e) else xs + [e]
  }

  datatype Op =
    | Drop(name: string)
    | Upsert(name: string, entry: Json)
    | Append(entries: seq<Json>)
    | Ensure(name: string, entry: Json)

  function Listed(s: Slot): seq<Json>
  {
    if s.Present? then s.entries else []
  }

  /** Whether the code reaches its `setSlice`. */
  predicate Writes(kind: Kind, op: Op, s: Slot)
  {
    match op
    case Drop(name) => Has(kind, Listed(s), name)
    case Ensure(name, _) => !Has(kind, Listed(s), name)
    case _ => true
  }

  /** The slice that an edit writes: appending nothing to nothing leaves it nil. */
  function Slice(op: Op, xs: seq<Json>): Json
  {
    if op.Append? && xs == [] then Nil else List(xs, true)
  }

  /** What a list reads as after appending. */
  function Appended(xs: seq<Json>): Slot
  {
    if xs == [] then Gone else Present(xs)
  }

  function Run(kind: Kind, op: Op, s: Slot): Slot
  {
    if s.Bad? || !Writes(kind, op, s) then s
    else match op
      case Drop(name) => Present(DropFirst(kind, Listed(s), name))
      case Upsert(name, e) => Present(Upserted(kind, Listed(s), name, e))
      case Append(es) => Appended(Listed(s) + es)
      case Ensure(_, e) => Present(Listed(s) + [e])
  }

  function Apply(doc: Json, t: Loc, kind: Kind, op: Op): Outcome
  {
    var s := Read(doc, t, kind);
    if s.Bad? then Outcome(doc, false)
    else if !Writes(kind, op, s) then Outcome(doc, true)
    else SetSlice(doc, t, Slice(op, Listed(Run(kind, op, s))))
  }

  // ---- What an edit does to the document ----

  /** The list can be read, and written if it is absent. */
  predicate Editable(doc: Json, t: Loc, kind: Kind)
  {
    !Read(doc, t, kind).Bad? && CanPut(doc, t)
  }

  predicate Sound(kind: Kind, op: Op)
  {
    match op
    case Drop(_) => true
    case Upsert(name, e) => Decodes(kind, e) && Plain(e) && Named(kind, e, name)
    case Append(es) => AllDecode(kind, es) && forall i :: 0 <= i < |es| ==> Plain(es[i])
    case Ensure(name, e) => Decodes(kind, e) && Plain(e) && Named(kind, e, name)
  }

  predicate PlainSlot(s: Slot)
  {
    forall i :: 0 <= i < |Listed(s)| ==> Plain(Listed(s)[i])
  }

  lemma {:induction false} DropFirstMembers(kind: Kind, xs: seq<Json>, name: string)
    ensures forall e :: e in DropFirst(kind, xs, name) ==> e in xs
  {
    if xs != [] { DropFirstMembers(kind, xs[1..], name); }
  }

  lemma RunKeeps(kind: Kind, op: Op, s: Slot)
    requires Sound(kind, op)
    ensures AllDecode(kind, Listed(s)) ==> AllDecode(kind, Listed(Run(kind, op, s)))
    ensures PlainSlot(s) ==> PlainSlot(Run(kind, op, s))
  {
    var xs, ys := Listed(s), Listed(Run(kind, op, s));
    if op.Drop? && ys != xs {
      DropFirstMembers(kind, xs, op.name);
      forall i | 0 <= i < |ys| ensures exists j :: 0 <= j < |xs| && xs[j] == ys[i] {
        assert ys[i] in ys;
      }
    }
  }

  /** An edit of an editable list succeeds, acts on the list as `Run`, and is
      invisible at every location incomparable with it. */
  lemma ApplyEffect(doc: Json, t: Loc, kind: Kind, op: Op) returns (x: Json)
    requires Editable(doc, t, kind) && Sound(kind, op)
    ensures var o := Apply(doc, t, kind, op);
      && o.ok
      && Editable(o.doc, t, kind)
      && Read(o.doc, t, kind) == Run(kind, op, Read(doc, t, kind))
      && (o.doc == doc || o.doc == Put(doc, t, x))
      && (o.doc != doc ==> Walk(o.doc, t).Found?)
      && forall q: Loc | !Comparable(t, q) ::
           Walk(o.doc, q) == Walk(doc, q) && (CanPut(o.doc, q) <==> CanPut(doc, q))
  {
    var s := Read(doc, t, kind);
    x := doc;
    if Writes(kind, op, s) {
      x := Slice(op, Listed(Run(kind, op, s)));
      RunKeeps(kind, op, s);
      PutGet(doc, t, x);
      PutPut(doc, t, x, x);
      forall q: Loc | !Comparable(t, q)
        ensures Walk(Put(doc, t, x), q) == Walk(doc, q) && (CanPut(Put(doc, t, x), q) <==> CanPut(doc, q))
      {
        PutOther(doc, t, x, q);
        CanPutOther(doc, t, x, q);
      }
    }
  }

  lemma ReadNorm(doc: Json, t: Loc, kind: Kind)
    requires Editable(doc, t, kind) && PlainSlot(Read(doc, t, kind))
    ensures Read(Norm(doc), t, kind) == Read(doc, t, kind) && Editable(Norm(doc), t, kind)
  {
    WalkNorm(doc, t);
    if Walk(doc, t).Found? && Walk(doc, t).value.List? {
      var xs := Walk(doc, t).value.items;
      assert Listed(Read(doc, t, kind)) == xs;
      assert Norm(Walk(doc, t).value).items == xs by {
        forall i | 0 <= i < |xs| ensures Norm(xs[i]) == xs[i] { assert Plain(Listed(Read(doc, t, kind))[i]); }
      }
    }
  }

  lemma ReadPlain(doc: Json, t: Loc, kind: Kind)
    requires Plain(doc)
    ensures PlainSlot(Read(doc, t, kind))
    ensures Read(doc, t, kind).Present? ==> Walk(doc, t) == Found(List(Listed(Read(doc, t, kind)), false))
  {
    WalkNorm(doc, t);
    if Walk(doc, t).Found? && Walk(doc, t).value.List? {
      var v := Walk(doc, t).value;
      assert Norm(v) == v;
      forall i | 0 <= i < |v.items| ensures Plain(v.items[i]) {
        assert Norm(v).items[i] == v.items[i];
      }
    }
  }
}
