/**
 From collected bindings to the secret that is projected: provisioned secrets
 with their cached items, renaming of items, the choice between reusing a
 secret and writing a new one, and the check for mandatory keys.
 */
module Secrets {

  import opened Sequences
  import opened Pods
  import opened Pipelines

  /** A binding item with its value as text; `sourced` items come from a service. */
  datatype TextItem = TextItem(name: string, value: string, sourced: bool)

  // ---- Items as a map ----

  /** Later items win. */
  function AsMapOf(items: seq<TextItem>): map<string, string>
  {
    if items == [] then map[]
    else AsMapOf(items[..|items| - 1])[items[|items| - 1].name := items[|items| - 1].value]
  }

  method AsMap(items: seq<TextItem>) returns (r: map<string, string>)
    ensures r == AsMapOf(items)
  {
    r := map[];
    var i := 0;
    while i < |items|
      invariant 0 <= i <= |items| && r == AsMapOf(items[..i])
    {
      assert items[..i + 1][..i] == items[..i];
      r := r[items[i].name := items[i].value];
      i := i + 1;
    }
    assert items[..i] == items;
  }

  /** MergeMaps: every entry of `src`, in any order, is written into `dest`. */
  method MergeMaps<V>(dest: map<string, V>, src: map<string, V>) returns (r: map<string, V>)
    ensures r == dest + src
  {
    r := dest;
    var keys := src.Keys;
    while keys != {}
      invariant keys <= src.Keys
      invariant r == dest + (map k | k in src && k !in keys :: src[k])
      decreases |keys|
    {
      var k :| k in keys;
      keys := keys - {k};
      r := r[k := src[k]];
    }
    assert (map k | k in src && k !in keys :: src[k]) == src;
  }

  lemma MergeOne(a: map<string, string>, b: map<string, string>, k: string, v: string)
    ensures (a + b)[k := v] == a + b[k := v]
  {
  }

  /** The map of concatenated items is the merge of their maps. */
  lemma {:induction false} MapOfBoth(xs: seq<TextItem>, ys: seq<TextItem>)
    ensures AsMapOf(xs + ys) == AsMapOf(xs) + AsMapOf(ys)
    decreases |ys|
  {
    if ys == [] {
      assert xs + ys == xs;
    } else {
      var n := |ys| - 1;
      MapOfBoth(xs, ys[..n]);
      assert (xs + ys)[..|xs + ys| - 1] == xs + ys[..n] && (xs + ys)[|xs + ys| - 1] == ys[n];
      MergeOne(AsMapOf(xs), AsMapOf(ys[..n]), ys[n].name, ys[n].value);
    }
  }

  // ---- Provisioned secrets ----

  /** The data of a secret: missing, malformed, or values of which each can or
      cannot be decoded. */
  datatype Data = NoData | BadData | Entries(values: map<string, Option<string>>)

  predicate EachDecodes(m: map<string, Option<string>>)
  {
    forall k :: k in m ==> m[k].Some?
  }

  predicate NoneDecodes(m: map<string, Option<string>>)
  {
    forall k :: k in m ==> m[k].None?
  }

  function Decoded(m: map<string, Option<string>>): map<string, string>
  {
    map k | k in m && m[k].Some? :: m[k].value
  }

  /** `ks` visits every key once. */
  ghost predicate Enumerates(ks: seq<string>, keys: set<string>)
  {
    Distinct(ks) && Within(ks, keys) && forall k :: k in keys ==> k in ks
  }

  predicate Within(ks: seq<string>, keys: set<string>)
  {
    forall i :: 0 <= i < |ks| ==> ks[i] in keys
  }

  /** The items appended before the first value that cannot be decoded, and
      whether there is none. */
  function Fill(m: map<string, Option<string>>, order: seq<string>): (seq<TextItem>, bool)
    requires Within(order, m.Keys)
  {
    if order == [] then ([], true)
    else if m[order[0]].None? then ([], false)
    else
      var rest := Fill(m, order[1..]);
      ([TextItem(order[0], m[order[0]].value, true)] + rest.0, rest.1)
  }

  function KeysOf(d: Data): set<string>
  {
    if d.Entries? then d.values.Keys else {}
  }

  /** The result of the first Items and the cache it leaves, for an order of keys. */
  function First(d: Data, order: seq<string>): (Option<seq<TextItem>>, Option<seq<TextItem>>)
    requires Within(order, KeysOf(d))
  {
    match d
    case NoData => (Some([]), Some([]))
    case BadData => (None, None)
    case Entries(m) =>
      var f := Fill(m, order);
      (if f.1 then Some(f.0) else None, if f.0 == [] then None else Some(f.0))
  }

  class SecretBackedBindings {
    const name: string
    const data: Data
    /** The secret lives in the namespace of the binding. */
    const local: bool
    var items: Option<seq<TextItem>>

    constructor (name: string, data: Data, local: bool)
      ensures this.name == name && this.data == data && this.local == local && items == None
    {
      this.name, this.data, this.local := name, data, local;
      items := None;
    }

    /** Items: what is cached, or else the decoded data in some order. */
    method Items() returns (r: Option<seq<TextItem>>, ghost order: seq<string>)
      modifies this
      ensures old(items).Some? ==> r == old(items) && items == old(items)
      ensures old(items).None? ==> Enumerates(order, KeysOf(data)) && (r, items) == First(data, order)
    {
      order := [];
      if items.Some? { return items, []; }
      match data {
        case BadData => return None, [];
        case NoData =>
          items := Some([]);
          return items, [];
        case Entries(m) =>
          r, order := DecodeAll(m);
      }
    }

    method DecodeAll(m: map<string, Option<string>>) returns (r: Option<seq<TextItem>>, ghost order: seq<string>)
      requires items.None? && data == Entries(m)
      modifies this
      ensures Enumerates(order, m.Keys) && (r, items) == First(data, order)
    {
      order := [];
      var keys := m.Keys;
      var done := [];
      while keys != {}
        invariant keys <= m.Keys && Enumerates(order, m.Keys - keys)
        invariant Fill(m, order) == (done, true)
        invariant items == if done == [] then None else Some(done)
        decreases |keys|
      {
        var k :| k in keys;
        keys := keys - {k};
        FillMore(m, order, k);
        order := order + [k];
        if m[k].None? {
          ghost var rest := AnyOrder(keys);
          FillStops(m, order, rest);
          order := order + rest;
          return None, order;
        }
        done := done + [TextItem(k, m[k].value, true)];
        items := Some(done);
      }
      r := Some(done);
    }

    /** naming.Handle for items of this source alone: they are renamed in place. */
    method NameItems(rename: string -> Option<string>, flow: FlowCtrl, ghost s: Situation) returns (ok: bool)
      requires flow.Valid()
      modifies this, flow
      ensures flow.Valid() && Reports(Naming, s, old(flow.trace), flow.trace, false)
      ensures ok <==> flow.trace == old(flow.trace)
      ensures old(items).None? && data.Entries? && EachDecodes(data.values) && ok && items.Some? ==>
        exists order :: RenamedItems(data.values, Renaming(rename), order, items.value)
      ensures old(items).None? && data.Entries? && items.None? ==> data.values == map[] || !EachDecodes(data.values)
    {
      NamingReports(s, flow.trace);
      var all, order := Items();
      if all.None? || items.None? {
        if data.Entries? && EachDecodes(data.values) && old(items).None? { FillDecodes(data.values, order); }
        return true;
      }
      ghost var cached := items.value;
      var i := 0;
      while i < |items.value|
        invariant items.Some? && |items.value| == |cached| && 0 <= i <= |cached|
        invariant flow.trace == old(flow.trace) && flow.Valid()
        invariant forall j :: 0 <= j < i ==> items.value[j] == cached[j].(name := Renaming(rename)(cached[j].name))
        invariant forall j :: i <= j < |cached| ==> items.value[j] == cached[j]
        decreases |cached| - i
      {
        var item := items.value[i];
        var name := rename(item.name);
        if name.None? {
          flow.Error();
          flow.StopProcessing();
          return false;
        }
        items := Some(items.value[i := item.(name := name.value)]);
        i := i + 1;
      }
      ok := true;
      if data.Entries? && EachDecodes(data.values) && old(items).None? {
        FillDecodes(data.values, order);
        assert RenamedItems(data.values, Renaming(rename), order, items.value);
      }
    }

    /** Is the secret reused once its items are renamed? Then every projected
        name is one of its keys, and the projected secret is the collected data
        exactly when the renaming merges no keys and keeps values. */
    method ReuseAfterNaming(rename: string -> Option<string>, flow: FlowCtrl) returns (ok: bool, reused: bool)
      requires items.None? && data.Entries? && EachDecodes(data.values) && flow.Valid()
      modifies this, flow
      ensures ok && reused ==>
        var m, collected := data.values, ResultMap(items);
        && collected.Keys <= m.Keys
        && (collected == Decoded(m) <==> Injective(m.Keys, Renaming(rename)) && SameValues(m, Renaming(rename)))
    {
      hide AsMapOf, RenamedItems, Injective, SameValues, Decoded, IsSource;
      reused := false;
      ok := NameItems(rename, flow, Situation(false, false));
      if ok {
        reused := Source();
        if reused && items.Some? {
          ghost var order :| RenamedItems(data.values, Renaming(rename), order, items.value);
          ReuseFaithful(data.values, Renaming(rename), order, items.value);
          ReuseNames(data.values, Renaming(rename), order, items.value);
        } else if reused {
          NothingRenamed(Renaming(rename));
          assert data.values == map[] && data.values.Keys == {};
        }
      }
    }

    /** Source: the secret itself, as long as every cached item is named by one of its keys. */
    method Source() returns (ref: bool)
      ensures ref == IsSource(data, items)
    {
      if items.None? { return true; }
      if !data.Entries? { return false; }
      var i := 0;
      while i < |items.value|
        invariant 0 <= i <= |items.value|
        invariant forall j :: 0 <= j < i ==> items.value[j].name in data.values
      {
        if items.value[i].name !in data.values { return false; }
        i := i + 1;
      }
      return true;
    }
  }

  lemma NamingReports(s: Situation, before: seq<Call>)
    ensures Reports(Naming, s, before, before, false)
    ensures Reports(Naming, s, before, before + [Fail] + [Stop], false)
  {
    assert before[|before|..] == [];
    assert (before + [Fail] + [Stop])[|before|..] == [Fail, Stop];
  }

  predicate IsSource(d: Data, cache: Option<seq<TextItem>>)
  {
    cache.None? || (d.Entries? && forall j :: 0 <= j < |cache.value| ==> cache.value[j].name in d.values)
  }

  /** After a reading, a secret is its own source unless it has no data. */
  lemma SourceAfterReading(d: Data, order: seq<string>)
    requires Enumerates(order, KeysOf(d))
    ensures IsSource(d, First(d, order).1) <==> !d.NoData?
  {
    if d.Entries? { FillNames(d.values, order); }
  }

  lemma {:induction false} FillMore(m: map<string, Option<string>>, order: seq<string>, k: string)
    requires k in m && Within(order, m.Keys)
    ensures Fill(m, order).1 && m[k].None? ==> Fill(m, order + [k]) == (Fill(m, order).0, false)
    ensures Fill(m, order).1 && m[k].Some? ==>
      Fill(m, order + [k]) == (Fill(m, order).0 + [TextItem(k, m[k].value, true)], true)
  {
    var last := if m[k].Some? then [TextItem(k, m[k].value, true)] else [];
    if order == [] {
      assert [] + [k] == [k] && [k][1..] == [] && last + [] == [] + last;
    } else {
      assert (order + [k])[1..] == order[1..] + [k] && (order + [k])[0] == order[0];
      FillMore(m, order[1..], k);
      if m[order[0]].Some? {
        var x, f := TextItem(order[0], m[order[0]].value, true), Fill(m, order[1..]).0;
        assert [x] + (f + last) == ([x] + f) + last;
      }
    }
  }

  lemma {:induction false} FillStops(m: map<string, Option<string>>, order: seq<string>, rest: seq<string>)
    requires Within(order, m.Keys) && Within(rest, m.Keys)
    ensures !Fill(m, order).1 ==> Fill(m, order + rest) == Fill(m, order)
  {
    if order != [] {
      assert (order + rest)[1..] == order[1..] + rest && (order + rest)[0] == order[0];
      FillStops(m, order[1..], rest);
    }
  }

  lemma {:induction false} AnyOrder(keys: set<string>) returns (ks: seq<string>)
    ensures Enumerates(ks, keys)
    decreases |keys|
  {
    if keys == {} {
      ks := [];
    } else {
      var k :| k in keys;
      var rest := AnyOrder(keys - {k});
      ks := [k] + rest;
    }
  }

  // ---- When repeated readings agree ----

  function ResultMap(r: Option<seq<TextItem>>): map<string, string>
  {
    if r.Some? then AsMapOf(r.value) else map[]
  }

  /** What a provisioned secret contributes. */
  function DataOf(d: Data, cache: Option<seq<TextItem>>): map<string, string>
  {
    if cache.Some? then AsMapOf(cache.value)
    else if d.Entries? && EachDecodes(d.values) then Decoded(d.values)
    else map[]
  }

  /** The data decodes altogether or not at all. */
  predicate Uniform(d: Data)
  {
    d.Entries? ==> EachDecodes(d.values) || NoneDecodes(d.values)
  }

  predicate Steady(d: Data, cache: Option<seq<TextItem>>)
  {
    cache.Some? || Uniform(d)
  }

  lemma {:induction false} FillDecodes(m: map<string, Option<string>>, order: seq<string>)
    requires EachDecodes(m) && Within(order, m.Keys)
    ensures Fill(m, order).1 && |Fill(m, order).0| == |order|
    ensures forall i :: 0 <= i < |order| ==> Fill(m, order).0[i] == TextItem(order[i], m[order[i]].value, true)
  {
    if order != [] { FillDecodes(m, order[1..]); }
  }

  /** The map has the names of the items as keys. */
  lemma {:induction false} MapNames(items: seq<TextItem>, k: string)
    ensures k in AsMapOf(items) <==> exists i :: 0 <= i < |items| && items[i].name == k
  {
    if items != [] {
      var n := |items| - 1;
      MapNames(items[..n], k);
      if items[n].name != k && k in AsMapOf(items) {
        var i :| 0 <= i < n && items[..n][i].name == k;
        assert items[i].name == k;
      }
      if i :| 0 <= i < |items| && items[i].name == k {
        assert i < n ==> items[..n][i].name == k;
      }
    }
  }

  predicate DistinctNames(items: seq<TextItem>)
  {
    forall i, j :: 0 <= i < j < |items| ==> items[i].name != items[j].name
  }

  /** Items with distinct names keep their values. */
  lemma {:induction false} MapValue(items: seq<TextItem>, i: nat)
    requires DistinctNames(items) && i < |items|
    ensures items[i].name in AsMapOf(items) && AsMapOf(items)[items[i].name] == items[i].value
  {
    var n := |items| - 1;
    if i < n {
      assert items[..n][i] == items[i];
      MapValue(items[..n], i);
    }
  }

  lemma FillMap(m: map<string, Option<string>>, order: seq<string>)
    requires EachDecodes(m) && Enumerates(order, m.Keys)
    ensures Fill(m, order).1 && AsMapOf(Fill(m, order).0) == Decoded(m)
  {
    hide AsMapOf, Fill;
    FillDecodes(m, order);
    var items := Fill(m, order).0;
    assert DistinctNames(items);
    forall k ensures k in AsMapOf(items) <==> k in m {
      MapNames(items, k);
      if k in m {
        assert k in order;
        var i :| 0 <= i < |order| && order[i] == k;
        assert items[i].name == k;
      }
    }
    forall k | k in m ensures AsMapOf(items)[k] == m[k].value {
      var i :| 0 <= i < |order| && order[i] == k;
      MapValue(items, i);
    }
  }

  lemma FillFails(m: map<string, Option<string>>, order: seq<string>)
    requires NoneDecodes(m) && Within(order, m.Keys)
    ensures Fill(m, order) == ([], order == [])
  {
  }

  /** The first reading and all later ones contribute the same. */
  lemma FirstSteady(d: Data, order: seq<string>)
    requires Uniform(d) && Enumerates(order, KeysOf(d))
    ensures var f := First(d, order);
      ResultMap(f.0) == DataOf(d, None) == DataOf(d, f.1) && (f.1.Some? ==> f.0 == f.1)
  {
    match d
    case NoData =>
    case BadData =>
    case Entries(m) =>
      if EachDecodes(m) {
        FillMap(m, order);
      } else {
        FillFails(m, order);
        var k :| k in m && m[k].None?;
        assert k in order;
      }
  }

  /** Two readings in a row contribute the same, whatever the order of keys,
      exactly when the data decodes altogether or not at all: otherwise the
      failing first reading leaves a partial cache for the second. */
  lemma SteadyIff(d: Data)
    ensures Uniform(d) <==>
      forall order :: Enumerates(order, KeysOf(d)) ==>
        var f := First(d, order); f.1.Some? ==> ResultMap(f.0) == ResultMap(f.1)
  {
    if Uniform(d) {
      forall order | Enumerates(order, KeysOf(d))
        ensures var f := First(d, order); f.1.Some? ==> ResultMap(f.0) == ResultMap(f.1)
      {
        FirstSteady(d, order);
      }
    } else {
      var m := d.values;
      var a :| a in m && m[a].Some?;
      var b :| b in m && m[b].None?;
      var order := PartialOrder(m, a, b);
      var f := First(d, order);
      assert a in ResultMap(f.1) && a !in ResultMap(f.0);
    }
  }

  lemma PartialOrder(m: map<string, Option<string>>, a: string, b: string) returns (order: seq<string>)
    requires a in m && b in m && m[a].Some? && m[b].None?
    ensures Enumerates(order, m.Keys)
    ensures First(Entries(m), order) == (None, Some([TextItem(a, m[a].value, true)]))
    ensures AsMapOf([TextItem(a, m[a].value, true)]) == map[a := m[a].value]
  {
    var rest := AnyOrder(m.Keys - {a, b});
    order := [a, b] + rest;
    assert order[1..] == [b] + rest && order[1..][0] == b;
    assert Fill(m, order[1..]) == ([], false);
    var x := TextItem(a, m[a].value, true);
    assert [x] + [] == [x] && [x][..0] == [];
  }

  /** A reading leaves a cache alone, and the first one caches items under the
      names of their keys. */
  ghost predicate Kept(d: Data, before: Option<seq<TextItem>>, after: Option<seq<TextItem>>)
  {
    && (before.Some? ==> after == before)
    && (before.None? && after.Some? ==> Cached(d, after))
    && (d.Entries? ==> IsSource(d, after) == IsSource(d, before))
  }

  /** The cache that a first reading leaves. */
  ghost predicate Cached(d: Data, cache: Option<seq<TextItem>>)
  {
    exists order :: Enumerates(order, KeysOf(d)) && cache == First(d, order).1
  }

  lemma FirstKept(d: Data, order: seq<string>)
    requires Enumerates(order, KeysOf(d))
    ensures Kept(d, None, First(d, order).1)
  {
    if d.Entries? { FillNames(d.values, order); }
  }

  lemma {:induction false} FillNames(m: map<string, Option<string>>, order: seq<string>)
    requires Within(order, m.Keys)
    ensures forall i :: 0 <= i < |Fill(m, order).0| ==> Fill(m, order).0[i].name in m
  {
    if order != [] { FillNames(m, order[1..]); }
  }

  lemma KeptSelf(d: Data, a: Option<seq<TextItem>>)
    ensures Kept(d, a, a)
  {
  }

  lemma KeptSource(d: Data, a: Option<seq<TextItem>>, b: Option<seq<TextItem>>)
    requires Kept(d, a, b) && !IsSource(d, a)
    ensures !IsSource(d, b)
  {
  }

  lemma KeptTwice(d: Data, a: Option<seq<TextItem>>, b: Option<seq<TextItem>>, c: Option<seq<TextItem>>)
    requires Kept(d, a, b) && Kept(d, b, c)
    ensures Kept(d, a, c)
  {
  }

  // ---- The context ----

  ghost function Snapshot(bs: seq<SecretBackedBindings>): (r: seq<map<string, string>>)
    reads bs
    ensures |r| == |bs| && forall i :: 0 <= i < |bs| ==> r[i] == DataOf(bs[i].data, bs[i].items)
  {
    if bs == [] then []
    else Snapshot(bs[..|bs| - 1]) + [DataOf(bs[|bs| - 1].data, bs[|bs| - 1].items)]
  }

  ghost function Caches(bs: seq<SecretBackedBindings>): (r: seq<Option<seq<TextItem>>>)
    reads bs
    ensures |r| == |bs| && forall i :: 0 <= i < |bs| ==> r[i] == bs[i].items
  {
    if bs == [] then [] else Caches(bs[..|bs| - 1]) + [bs[|bs| - 1].items]
  }

  function MergeAll(ds: seq<map<string, string>>): map<string, string>
  {
    if ds == [] then map[] else MergeAll(ds[..|ds| - 1]) + ds[|ds| - 1]
  }

  lemma MergeNothing()
    ensures MergeAll([]) == map[] && AsMapOf([]) == map[]
  {
  }

  lemma MergeStep(ds: seq<map<string, string>>, i: nat)
    requires i < |ds|
    ensures MergeAll(ds[..i + 1]) == MergeAll(ds[..i]) + ds[i]
  {
    assert ds[..i + 1][..i] == ds[..i];
  }

  /** The last item of its name. */
  predicate LastOfName(items: seq<TextItem>, i: int)
  {
    0 <= i < |items| && forall j :: i < j < |items| ==> items[j].name != items[i].name
  }

  lemma {:induction false} LastWins(items: seq<TextItem>, i: nat)
    requires LastOfName(items, i)
    ensures items[i].name in AsMapOf(items) && AsMapOf(items)[items[i].name] == items[i].value
  {
    var n := |items| - 1;
    if i < n {
      assert items[..n][i] == items[i];
      LastWins(items[..n], i);
    }
  }

  /** The last source that has the key. */
  predicate LastSource(ds: seq<map<string, string>>, k: string, i: int)
  {
    0 <= i < |ds| && k in ds[i] && forall j :: i < j < |ds| ==> k !in ds[j]
  }

  lemma {:induction false} LastSourceWins(ds: seq<map<string, string>>, k: string, i: nat)
    requires LastSource(ds, k, i)
    ensures k in MergeAll(ds) && MergeAll(ds)[k] == ds[i][k]
  {
    var n := |ds| - 1;
    if i < n {
      assert ds[..n][i] == ds[i];
      LastSourceWins(ds[..n], k, i);
    }
  }

  lemma {:induction false} MergeKeys(ds: seq<map<string, string>>, k: string)
    ensures k in MergeAll(ds) <==> exists i :: 0 <= i < |ds| && k in ds[i]
  {
    if ds != [] {
      var n := |ds| - 1;
      MergeKeys(ds[..n], k);
      if i :| 0 <= i < |ds| && k in ds[i] { assert i < n ==> ds[..n][i] == ds[i]; }
    }
  }

  /** The data of a secret that is made of sources and items of the binding's
      own: of each own name the last item, of each other key the last source. */
  ghost predicate Precedence(m: map<string, string>, ds: seq<map<string, string>>, own: seq<TextItem>)
  {
    && (forall k :: k in m <==>
          (exists i :: 0 <= i < |own| && own[i].name == k) || (exists i :: 0 <= i < |ds| && k in ds[i]))
    && (forall i :: LastOfName(own, i) ==> own[i].name in m && m[own[i].name] == own[i].value)
    && (forall k, i :: LastSource(ds, k, i) && (forall j :: 0 <= j < |own| ==> own[j].name != k) ==>
          k in m && m[k] == ds[i][k])
  }

  lemma MergedPrecedence(ds: seq<map<string, string>>, own: seq<TextItem>)
    ensures Precedence(MergeAll(ds) + AsMapOf(own), ds, own)
  {
    hide MergeAll, AsMapOf, LastOfName, LastSource;
    var m := MergeAll(ds) + AsMapOf(own);
    forall k ensures k in m <==>
        (exists i :: 0 <= i < |own| && own[i].name == k) || (exists i :: 0 <= i < |ds| && k in ds[i]) {
      MergeKeys(ds, k);
      MapNames(own, k);
    }
    forall i | LastOfName(own, i) ensures 0 <= i < |own| && own[i].name in m && m[own[i].name] == own[i].value {
      LastRange(own, i);
      LastWins(own, i);
    }
    forall k, i | LastSource(ds, k, i) && (forall j :: 0 <= j < |own| ==> own[j].name != k)
      ensures 0 <= i < |ds| && k in ds[i] && k in m && m[k] == ds[i][k]
    {
      SourceRange(ds, k, i);
      LastSourceWins(ds, k, i);
      MapNames(own, k);
    }
  }

  lemma LastRange(items: seq<TextItem>, i: int)
    requires LastOfName(items, i)
    ensures 0 <= i < |items|
  {
  }

  lemma SourceRange(ds: seq<map<string, string>>, k: string, i: int)
    requires LastSource(ds, k, i)
    ensures 0 <= i < |ds| && k in ds[i]
  {
  }

  class BindingContext {
    const meta: string
    const digest: map<string, string> -> string
    const bindings: seq<SecretBackedBindings>
    /** Items that are not backed by a secret. */
    var own: seq<TextItem>
    /** The secrets in the binding's namespace. */
    var store: map<string, map<string, string>>
    /** The name recorded in the status. */
    var status: string

    constructor (meta: string, digest: map<string, string> -> string, bindings: seq<SecretBackedBindings>,
                 own: seq<TextItem>, store: map<string, map<string, string>>, status: string)
      ensures this.meta == meta && this.digest == digest && this.bindings == bindings
      ensures this.own == own && this.store == store && this.status == status
    {
      this.meta, this.digest, this.bindings := meta, digest, bindings;
      this.own, this.store, this.status := own, store, status;
    }

    ghost predicate AllSteady()
      reads bindings
    {
      forall i :: 0 <= i < |bindings| ==> Steady(bindings[i].data, bindings[i].items)
    }

    /** What all sources contribute together. */
    ghost function Collected(): map<string, string>
      reads this, bindings
    {
      MergeAll(Snapshot(bindings)) + AsMapOf(own)
    }

    /** Sources read any number of times since their caches were `before`. If
        they were steady, they are, and contribute `ds`. */
    ghost predicate Since(ds: seq<map<string, string>>, before: seq<Option<seq<TextItem>>>, steady: bool)
      reads bindings
    {
      && |before| == |bindings| == |ds|
      && (forall j :: 0 <= j < |bindings| ==> Kept(bindings[j].data, before[j], bindings[j].items))
      && (steady ==> AllSteady() && Snapshot(bindings) == ds)
    }

    /** One reading of a source keeps what all sources contribute. */
    method ReadBack(
      i: nat, ghost ds: seq<map<string, string>>, ghost before: seq<Option<seq<TextItem>>>, ghost steady: bool)
      returns (items: Option<seq<TextItem>>)
      requires i < |bindings| && Since(ds, before, steady)
      modifies bindings
      ensures Since(ds, before, steady) && i < |ds| && (steady ==> ResultMap(items) == ds[i])
    {
      hide AsMapOf, Cached;
      ghost var order;
      ghost var cache := bindings[i].items;
      items, order := bindings[i].Items();
      if cache.None? {
        if steady { FirstSteady(bindings[i].data, order); }
        FirstKept(bindings[i].data, order);
      } else {
        KeptSelf(bindings[i].data, cache);
      }
      forall j | 0 <= j < |bindings| ensures Kept(bindings[j].data, before[j], bindings[j].items) {
        if bindings[j] == bindings[i] { KeptTwice(bindings[j].data, before[j], cache, bindings[j].items); }
      }
    }

    /** Each source was read, or not, since the state before. */
    ghost predicate OnlyRead(before: seq<Option<seq<TextItem>>>)
      reads bindings
    {
      |before| == |bindings| && forall j :: 0 <= j < |bindings| ==> Kept(bindings[j].data, before[j], bindings[j].items)
    }

    lemma NothingRead()
      ensures OnlyRead(Caches(bindings)) && Since(Snapshot(bindings), Caches(bindings), AllSteady())
    {
      hide AsMapOf, DataOf, Steady, IsSource, Cached;
      forall j | 0 <= j < |bindings| ensures Kept(bindings[j].data, bindings[j].items, bindings[j].items) {
        KeptSelf(bindings[j].data, bindings[j].items);
      }
    }

    /** BindingItems: the items of all sources in turn. */
    method BindingItems() returns (r: seq<TextItem>)
      modifies bindings
      ensures OnlyRead(old(Caches(bindings)))
      ensures old(AllSteady()) ==>
        AllSteady() && Snapshot(bindings) == old(Snapshot(bindings)) && AsMapOf(r) == old(Collected())
    {
      hide AsMapOf, DataOf, Steady, MergeAll, Cached, IsSource, Kept;
      ghost var ds, before, steady := Snapshot(bindings), Caches(bindings), AllSteady();
      NothingRead();
      r := ItemsSince(ds, before, steady);
      MapOfBoth(r, own);
      r := r + own;
    }

    method ItemsSince(ghost ds: seq<map<string, string>>, ghost before: seq<Option<seq<TextItem>>>, ghost steady: bool)
      returns (r: seq<TextItem>)
      requires Since(ds, before, steady)
      modifies bindings
      ensures Since(ds, before, steady) && (steady ==> AsMapOf(r) == MergeAll(ds))
    {
      hide AsMapOf, MergeAll, Since;
      r := [];
      MergeNothing();
      SinceLength(ds, before, steady);
      var i := 0;
      while i < |bindings|
        invariant 0 <= i <= |bindings| == |ds| && Since(ds, before, steady)
        invariant (steady ==> AsMapOf(r) == MergeAll(ds[..i]))
      {
        MergeStep(ds, i);
        var items := ReadBack(i, ds, before, steady);
        if items.Some? {
          MapOfBoth(r, items.value);
          r := r + items.value;
        }
        i := i + 1;
      }
      assert ds[..i] == ds;
    }

    /** bindingItemMap: the maps of all sources merged in turn. */
    method BindingItemMap() returns (r: map<string, string>)
      modifies bindings
      ensures OnlyRead(old(Caches(bindings)))
      ensures old(AllSteady()) ==> AllSteady() && Snapshot(bindings) == old(Snapshot(bindings)) && r == old(Collected())
      ensures old(AllSteady()) ==> Precedence(r, Snapshot(bindings), own)
    {
      hide AsMapOf, DataOf, Steady, MergeAll, Cached, IsSource, Kept, Precedence;
      ghost var ds, before, steady := Snapshot(bindings), Caches(bindings), AllSteady();
      NothingRead();
      r := MapSince(ds, before, steady);
      var m := AsMap(own);
      r := MergeMaps(r, m);
      MergedPrecedence(ds, own);
    }

    method MapSince(ghost ds: seq<map<string, string>>, ghost before: seq<Option<seq<TextItem>>>, ghost steady: bool)
      returns (r: map<string, string>)
      requires Since(ds, before, steady)
      modifies bindings
      ensures Since(ds, before, steady) && (steady ==> r == MergeAll(ds))
    {
      hide AsMapOf, MergeAll, Since;
      r := map[];
      MergeNothing();
      SinceLength(ds, before, steady);
      var i := 0;
      while i < |bindings|
        invariant 0 <= i <= |bindings| == |ds| && Since(ds, before, steady) && (steady ==> r == MergeAll(ds[..i]))
      {
        MergeStep(ds, i);
        var items := ReadBack(i, ds, before, steady);
        if items.Some? {
          var m := AsMap(items.value);
          r := MergeMaps(r, m);
        }
        i := i + 1;
      }
      assert ds[..i] == ds;
    }

    lemma SinceLength(ds: seq<map<string, string>>, before: seq<Option<seq<TextItem>>>, steady: bool)
      requires Since(ds, before, steady)
      ensures |ds| == |bindings|
    {
    }

    /** Is the only source a secret that can be used as it is? */
    ghost predicate Reuses()
      reads this, bindings
    {
      own == [] && |bindings| == 1 && bindings[0].local && IsSource(bindings[0].data, bindings[0].items)
    }

    ghost function SecretName(): string
      reads this, bindings
    {
      if Reuses() then bindings[0].name else meta + "-" + digest(Collected())
    }

    /** bindingSecretName, when no unbinding is requested. A reused secret is
        named whatever it holds; with steady sources asking again gives the same
        answer. */
    method BindingSecretName() returns (name: string, exists_: bool)
      modifies bindings
      ensures OnlyRead(old(Caches(bindings))) && exists_ == old(Reuses())
      ensures exists_ ==> name == bindings[0].name && Caches(bindings) == old(Caches(bindings))
      ensures old(AllSteady()) ==>
        && AllSteady() && Snapshot(bindings) == old(Snapshot(bindings))
        && name == old(SecretName()) == SecretName() && Reuses() == old(Reuses())
        && (!exists_ ==> name == meta + "-" + digest(old(Collected())))
    {
      hide AsMapOf, DataOf, Steady, MergeAll, IsSource, Kept;
      NothingRead();
      if own == [] && |bindings| == 1 {
        var ref := bindings[0].Source();
        if ref && bindings[0].local { return bindings[0].name, true; }
      }
      var data := NewData();
      name, exists_ := meta + "-" + digest(data), false;
    }

    /** The data of a new secret. */
    method NewData() returns (data: map<string, string>)
      requires !Reuses()
      modifies bindings
      ensures OnlyRead(old(Caches(bindings))) && !Reuses()
      ensures old(AllSteady()) ==>
        && AllSteady() && Snapshot(bindings) == old(Snapshot(bindings))
        && SecretName() == old(SecretName()) && data == old(Collected())
    {
      hide AsMapOf, DataOf, Steady, MergeAll, IsSource, Kept;
      data := BindingItemMap();
      if |bindings| == 1 && !old(IsSource(bindings[0].data, bindings[0].items)) {
        KeptSource(bindings[0].data, old(bindings[0].items), bindings[0].items);
      }
    }

    /** persistSecret: a secret that is not reused is written under its name,
        unless it would be empty; the name is given unless there is none. */
    method WriteSecret(writable: bool) returns (name: string, ok: bool)
      modifies this`store, bindings
      ensures old(Reuses()) || writable ==> ok
      ensures !ok || old(Reuses()) ==> store == old(store)
      ensures old(Reuses()) ==> name == bindings[0].name
      ensures old(AllSteady()) ==>
        && AllSteady() && Snapshot(bindings) == old(Snapshot(bindings))
        && SecretName() == old(SecretName()) && Reuses() == old(Reuses())
        && ok == (old(Reuses()) || old(Collected()) == map[] || writable)
        && store == (if old(Reuses()) || old(Collected()) == map[] || !writable then old(store)
                     else old(store)[old(SecretName()) := old(Collected())])
        && name == (if !old(Reuses()) && old(Collected()) == map[] then "" else old(SecretName()))
    {
      hide AsMapOf, DataOf, Steady, MergeAll, IsSource, Kept, OnlyRead;
      var exists_;
      ok := true;
      name, exists_ := BindingSecretName();
      if exists_ { return; }
      NotReused(old(Caches(bindings)));
      var data := NewData();
      if data == map[] { return "", true; }
      if !writable { return name, false; }
      store := store[name := data];
    }

    /** A secret that is no source of its items does not become one by being read. */
    lemma NotReused(before: seq<Option<seq<TextItem>>>)
      requires OnlyRead(before)
      requires !(own == [] && |bindings| == 1 && bindings[0].local && IsSource(bindings[0].data, before[0]))
      ensures !Reuses()
    {
      hide IsSource, Kept;
      if |bindings| == 1 && !IsSource(bindings[0].data, before[0]) {
        KeptSource(bindings[0].data, before[0], bindings[0].items);
      }
    }

    /** PersistSecret: the name of the persisted secret is recorded. After a
        failed write store and status are as before. */
    method PersistSecret(writable: bool) returns (ok: bool)
      modifies this`store, this`status, bindings
      ensures old(Reuses()) || writable ==> ok
      ensures !ok || old(Reuses()) ==> store == old(store)
      ensures !ok ==> status == old(status)
      ensures old(Reuses()) && bindings[0].name != "" ==> status == bindings[0].name
      ensures old(AllSteady()) ==>
        && AllSteady() && Snapshot(bindings) == old(Snapshot(bindings))
        && SecretName() == old(SecretName()) && Reuses() == old(Reuses())
        && ok == (old(Reuses()) || old(Collected()) == map[] || writable)
        && store == (if old(Reuses()) || old(Collected()) == map[] || !writable then old(store)
                     else old(store)[old(SecretName()) := old(Collected())])
        && status ==
             (if !ok || (!old(Reuses()) && old(Collected()) == map[]) || old(SecretName()) == "" then old(status)
              else old(SecretName()))
        && (!Reuses() && writable && old(Collected()) != map[] ==>
              SecretName() in store && Precedence(store[SecretName()], Snapshot(bindings), own))
    {
      hide AsMapOf, DataOf, Steady, MergeAll, IsSource, Kept, Precedence;
      var name;
      MergedPrecedence(Snapshot(bindings), own);
      name, ok := WriteSecret(writable);
      if ok && name != "" { status := name; }
    }

    /** Every secret of the namespace is stored as it was read, and no item was renamed. */
    ghost predicate Unrenamed()
      reads this, bindings
    {
      forall i :: 0 <= i < |bindings| ==>
        && bindings[i].items.None?
        && (bindings[i].local && bindings[i].data.Entries? && EachDecodes(bindings[i].data.values) ==>
              bindings[i].name in store && store[bindings[i].name] == Decoded(bindings[i].data.values))
    }

    /** BindingItems once more. Data that is there keeps its secret. */
    method SameSecretItems() returns (r: seq<TextItem>)
      modifies bindings
      ensures old(AllSteady()) ==>
        && AllSteady() && Collected() == old(Collected()) && AsMapOf(r) == Collected()
        && (Collected() != map[] ==> SecretName() == old(SecretName()) && Reuses() == old(Reuses()))
    {
      hide AsMapOf, DataOf, Steady, MergeAll, IsSource, Kept;
      if |bindings| == 1 { SoleSource(bindings[0]); }
      r := BindingItems();
      if old(AllSteady()) && own == [] && |bindings| == 1 && Collected() != map[] {
        SameSource(bindings[0].data, old(bindings[0].items), bindings[0].items);
      }
    }

    /** What PreFlightCheck finds out. With steady sources it passes if and
        only if the secret is persisted, applications are found, and there is
        data with every mandatory key; then the secret that any later projection
        names is stored and, unless it is a reused one whose items were renamed,
        holds exactly the collected data. */
    method Examine(mandatory: seq<string>, writable: bool, apps: Workloads) returns (v: Verdict)
      modifies this`store, this`status, bindings
      ensures old(AllSteady()) ==>
        FoundOut(v, old(Reuses()) || old(Collected()) == map[] || writable, apps, old(Collected()))
      ensures old(AllSteady()) ==>
        && AllSteady() && Collected() == old(Collected())
        && (v.Passed? <==>
              && (old(Reuses()) || writable) && apps.SomeFound? && old(Collected()) != map[]
              && forall k :: k in mandatory ==> k in Collected())
        && (v.Passed? ==> SecretName() == old(SecretName()))
        && (v.Passed? && (!old(Reuses()) || old(Unrenamed())) ==>
              SecretName() in store && store[SecretName()] == Collected())
        && (v.Passed? && SecretName() != "" ==> status == SecretName())
        && (v.Missing? ==> v.key in mandatory && v.key !in Collected())
    {
      hide AsMapOf, DataOf, Steady, MergeAll, IsSource, Kept;
      if |bindings| == 1 { SoleSource(bindings[0]); }
      ghost var reused, unrenamed := Reuses(), Unrenamed();
      var ok := PersistSecret(writable);
      if !ok { return NotPersisted; }
      if apps.LookupFails? { return Retried; }
      if apps.NoneFound? { return Stopped; }
      var items := SameSecretItems();
      v := CheckItems(mandatory, items);
      if v.Passed? && reused && unrenamed && old(AllSteady()) {
        ReusedData(bindings[0].data, old(store), bindings[0].name);
      }
    }

    /** PreFlightCheck: what it found out is reported to flow control. A secret
        that could not be persisted is not. */
    method PreFlightCheck(mandatory: seq<string>, writable: bool, apps: Workloads, flow: FlowCtrl, ghost s: Situation)
      returns (v: Verdict)
      requires flow.Valid()
      modifies this`store, this`status, bindings, flow
      ensures flow.Valid() && Reports(Handler.PreFlightCheck, s, old(flow.trace), flow.trace, false)
      ensures flow.trace == old(flow.trace) <==> v.Passed? || v.NotPersisted?
      ensures v.Retried? ==> flow.trace == old(flow.trace) + [RetryNow(true)]
      ensures v.Stopped? ==> flow.trace == old(flow.trace) + [Stop]
      ensures v.Missing? ==> flow.trace == old(flow.trace) + [Fail] + [Stop]
      ensures old(AllSteady()) ==>
        FoundOut(v, old(Reuses()) || old(Collected()) == map[] || writable, apps, old(Collected()))
      ensures old(AllSteady()) ==>
        && AllSteady() && Collected() == old(Collected())
        && (v.Passed? <==>
              && (old(Reuses()) || writable) && apps.SomeFound? && old(Collected()) != map[]
              && forall k :: k in mandatory ==> k in Collected())
        && (v.Passed? ==> SecretName() == old(SecretName()))
        && (v.Passed? && (!old(Reuses()) || old(Unrenamed())) ==>
              SecretName() in store && store[SecretName()] == Collected())
        && (v.Passed? && SecretName() != "" ==> status == SecretName())
        && (v.Missing? ==> v.key in mandatory && v.key !in Collected())
    {
      hide AsMapOf, DataOf, Steady, MergeAll, IsSource, Kept, Reports, Unrenamed, Performed, Decoded, Collected,
        SecretName, Reuses, AllSteady;
      PreFlightReports(s, flow.trace);
      v := Examine(mandatory, writable, apps);
      match v {
        case Passed =>
        case NotPersisted =>
        case Retried => flow.RetryProcessing(true);
        case Stopped => flow.StopProcessing();
        case Missing(_) =>
          flow.Error();
          flow.StopProcessing();
      }
    }
  }

  lemma PreFlightReports(s: Situation, before: seq<Call>)
    ensures Reports(Handler.PreFlightCheck, s, before, before, false)
    ensures Reports(Handler.PreFlightCheck, s, before, before + [RetryNow(true)], false)
    ensures Reports(Handler.PreFlightCheck, s, before, before + [Stop], false)
    ensures Reports(Handler.PreFlightCheck, s, before, before + [Fail] + [Stop], false)
  {
    assert before[|before|..] == [];
    assert (before + [RetryNow(true)])[|before|..] == [RetryNow(true)];
    assert (before + [Stop])[|before|..] == [Stop];
    assert (before + [Fail] + [Stop])[|before|..] == [Fail, Stop];
  }

  lemma SoleSource(b: SecretBackedBindings)
    ensures MergeAll(Snapshot([b])) + AsMapOf([]) == DataOf(b.data, b.items)
  {
    assert Snapshot([b])[..0] == [];
    assert map[] + DataOf(b.data, b.items) + map[] == DataOf(b.data, b.items);
  }

  /** Data comes from entries, and entries stay a source. */
  lemma SameSource(d: Data, before: Option<seq<TextItem>>, after: Option<seq<TextItem>>)
    requires Kept(d, before, after) && DataOf(d, before) != map[]
    ensures IsSource(d, after) == IsSource(d, before)
  {
  }

  lemma ReusedData(d: Data, store: map<string, map<string, string>>, name: string)
    requires DataOf(d, None) != map[]
    requires d.Entries? && EachDecodes(d.values) ==> name in store && store[name] == Decoded(d.values)
    ensures name in store && store[name] == DataOf(d, None)
  {
  }

  datatype Workloads = LookupFails | NoneFound | SomeFound
  datatype Verdict = NotPersisted | Retried | Stopped | Missing(key: string) | Passed

  /** In this order: a secret that could not be persisted, a failed lookup, no
      applications, and no data. */
  predicate FoundOut(v: Verdict, persisted: bool, apps: Workloads, data: map<string, string>)
  {
    && (v.NotPersisted? <==> !persisted)
    && (v.Retried? <==> persisted && (apps.LookupFails? || (apps.SomeFound? && data == map[])))
    && (v.Stopped? <==> persisted && apps.NoneFound?)
  }

  /** The last checks of PreFlightCheck: there is data, with every mandatory key. */
  method CheckItems(mandatory: seq<string>, items: seq<TextItem>) returns (v: Verdict)
    ensures v.Retried? || v.Missing? || v.Passed?
    ensures v.Retried? <==> AsMapOf(items) == map[]
    ensures v.Passed? <==> AsMapOf(items) != map[] && forall k :: k in mandatory ==> k in AsMapOf(items)
    ensures v.Missing? ==> v.key in mandatory && v.key !in AsMapOf(items)
  {
    hide AsMapOf;
    NoItems(items);
    if items == [] { return Retried; }
    var itemMap := AsMap(items);
    var i := 0;
    while i < |mandatory|
      invariant 0 <= i <= |mandatory| && forall j :: 0 <= j < i ==> mandatory[j] in itemMap
    {
      if mandatory[i] !in itemMap { return Missing(mandatory[i]); }
      i := i + 1;
    }
    assert forall k :: k in mandatory ==> k in itemMap;
    return Passed;
  }

  lemma NoItems(items: seq<TextItem>)
    ensures items == [] <==> AsMapOf(items) == map[]
  {
    if items != [] { assert items[|items| - 1].name in AsMapOf(items); }
  }

  // ---- Renaming ----

  /** The new name, or the old one where the template fails. */
  function Renaming(rename: string -> Option<string>): string -> string
  {
    k => if rename(k).Some? then rename(k).value else k
  }

  lemma NothingRenamed(rename: string -> string)
    ensures Decoded(map[]) == map[] && Injective({}, rename) && SameValues(map[], rename)
  {
  }

  function Image(keys: set<string>, rename: string -> string): set<string>
  {
    set k | k in keys :: rename(k)
  }

  predicate Injective(keys: set<string>, rename: string -> string)
  {
    forall j, k :: j in keys && k in keys && j != k ==> rename(j) != rename(k)
  }

  lemma ImageStep(keys: set<string>, rename: string -> string, k: string)
    requires k in keys
    ensures Image(keys, rename) == Image(keys - {k}, rename) + {rename(k)}
  {
  }

  lemma {:induction false} ImageSize(keys: set<string>, rename: string -> string)
    ensures |Image(keys, rename)| <= |keys|
    ensures Injective(keys, rename) ==> |Image(keys, rename)| == |keys|
    decreases |keys|
  {
    if keys != {} {
      var k :| k in keys;
      ImageSize(keys - {k}, rename);
      ImageStep(keys, rename, k);
    }
  }

  lemma SameSize(a: set<string>, b: set<string>)
    requires a <= b && |a| == |b|
    ensures a == b
  {
    assert |b - a| == |b| - |a|;
    assert b == a + (b - a);
  }

  /** Every key is the new name of one. */
  lemma Preimage(keys: set<string>, rename: string -> string, j: string) returns (k: string)
    requires Injective(keys, rename) && Image(keys, rename) <= keys && j in keys
    ensures k in keys && rename(k) == j
  {
    ImageSize(keys, rename);
    SameSize(Image(keys, rename), keys);
    k :| k in keys && rename(k) == j;
  }

  lemma MergedShrink(keys: set<string>, rename: string -> string, j: string, k: string)
    requires j in keys && k in keys && j != k && rename(j) == rename(k)
    ensures |Image(keys, rename)| < |keys|
  {
    ImageSize(keys - {k}, rename);
    ImageStep(keys, rename, k);
    assert rename(j) in Image(keys - {k}, rename);
    assert Image(keys, rename) == Image(keys - {k}, rename);
  }

  lemma FullImageInjective(keys: set<string>, rename: string -> string)
    requires Image(keys, rename) == keys
    ensures Injective(keys, rename)
  {
    forall j, k | j in keys && k in keys && j != k ensures rename(j) != rename(k) {
      if rename(j) == rename(k) { MergedShrink(keys, rename, j, k); }
    }
  }

  lemma {:induction false} Longest(keys: set<string>) returns (k: string)
    requires keys != {}
    ensures k in keys && forall j :: j in keys ==> |j| <= |k|
    decreases |keys|
  {
    k :| k in keys;
    if keys != {k} {
      var j := Longest(keys - {k});
      if |j| > |k| { k := j; }
    }
  }

  /** The template changes nothing about these names. */
  predicate ChangesNone(keys: set<string>, rename: string -> string)
  {
    forall k :: k in keys ==> rename(k) == k
  }

  predicate Lengthens(keys: set<string>, rename: string -> string)
  {
    forall k :: k in keys ==> |rename(k)| > |k| || rename(k) == k
  }

  predicate Idempotent(keys: set<string>, rename: string -> string)
  {
    forall k :: k in keys ==> rename(rename(k)) == rename(k)
  }

  /** A renaming of keys to keys that lengthens every name it changes changes none. */
  lemma LengtheningKeeps(keys: set<string>, rename: string -> string)
    requires Injective(keys, rename) && Image(keys, rename) <= keys && Lengthens(keys, rename)
    ensures ChangesNone(keys, rename)
  {
    if k0 :| k0 in keys && rename(k0) != k0 {
      var moved := set k | k in keys && rename(k) != k;
      assert k0 in moved;
      var k := Longest(moved);
      NextMoves(keys, rename, k);
    }
  }

  lemma NextMoves(keys: set<string>, rename: string -> string, k: string)
    requires Injective(keys, rename) && Image(keys, rename) <= keys && k in keys && rename(k) != k
    ensures rename(k) in keys && rename(rename(k)) != rename(k)
  {
    assert rename(k) in Image(keys, rename);
  }

  lemma IdempotentKeeps(keys: set<string>, rename: string -> string)
    requires Injective(keys, rename) && Image(keys, rename) <= keys && Idempotent(keys, rename)
    ensures ChangesNone(keys, rename)
  {
    forall k | k in keys ensures rename(k) == k {
      assert rename(k) in Image(keys, rename);
    }
  }

  // ---- Reuse after renaming ----

  /** The items of a renamed secret. */
  ghost predicate RenamedItems(
    m: map<string, Option<string>>, rename: string -> string, order: seq<string>, items: seq<TextItem>)
  {
    && EachDecodes(m) && Enumerates(order, m.Keys) && |items| == |order|
    && forall i :: 0 <= i < |order| ==> items[i] == TextItem(rename(order[i]), m[order[i]].value, true)
  }

  lemma RenamedAt(
    m: map<string, Option<string>>, rename: string -> string, order: seq<string>, items: seq<TextItem>, k: string)
    returns (i: nat)
    requires RenamedItems(m, rename, order, items) && k in m
    ensures i < |items| && items[i] == TextItem(rename(k), m[k].value, true)
  {
    assert k in order;
    i :| 0 <= i < |order| && order[i] == k;
  }

  /** The map of the items has exactly the new names as keys. */
  lemma RenamedKeys(m: map<string, Option<string>>, rename: string -> string, order: seq<string>, items: seq<TextItem>)
    requires RenamedItems(m, rename, order, items)
    ensures AsMapOf(items).Keys == Image(m.Keys, rename)
  {
    hide AsMapOf, EachDecodes;
    forall j ensures j in AsMapOf(items) <==> j in Image(m.Keys, rename) {
      MapNames(items, j);
      if j in AsMapOf(items) {
        var i :| 0 <= i < |items| && items[i].name == j;
        assert order[i] in m.Keys && rename(order[i]) == j;
      }
      if j in Image(m.Keys, rename) {
        var k :| k in m.Keys && rename(k) == j;
        var i := RenamedAt(m, rename, order, items, k);
        assert items[i].name == j;
      }
    }
  }

  /** If a secret is reused after renaming, every projected name is one of its keys. */
  lemma ReuseNames(m: map<string, Option<string>>, rename: string -> string, order: seq<string>, items: seq<TextItem>)
    requires RenamedItems(m, rename, order, items) && IsSource(Entries(m), Some(items))
    ensures AsMapOf(items).Keys == Image(m.Keys, rename) <= m.Keys
  {
    hide AsMapOf, EachDecodes, Enumerates;
    RenamedKeys(m, rename, order, items);
    forall j | j in AsMapOf(items) ensures j in m { MapNames(items, j); }
  }

  lemma RenamedValue(
    m: map<string, Option<string>>, rename: string -> string, order: seq<string>, items: seq<TextItem>, k: string)
    requires RenamedItems(m, rename, order, items) && Injective(m.Keys, rename) && k in m
    ensures rename(k) in AsMapOf(items) && AsMapOf(items)[rename(k)] == m[k].value
  {
    hide AsMapOf;
    assert DistinctNames(items);
    var i := RenamedAt(m, rename, order, items, k);
    MapValue(items, i);
  }

  /** Renamed keys hold equal values. */
  predicate SameValues(m: map<string, Option<string>>, rename: string -> string)
  {
    forall k :: k in m ==> rename(k) in m && m[rename(k)] == m[k]
  }

  lemma FaithfulIf(m: map<string, Option<string>>, rename: string -> string, order: seq<string>, items: seq<TextItem>)
    requires RenamedItems(m, rename, order, items) && IsSource(Entries(m), Some(items))
    requires Injective(m.Keys, rename) && SameValues(m, rename)
    ensures AsMapOf(items) == Decoded(m)
  {
    hide AsMapOf, Enumerates, Injective, Image, IsSource;
    ReuseNames(m, rename, order, items);
    forall j | j in m ensures j in AsMapOf(items) && AsMapOf(items)[j] == m[j].value {
      var k := Preimage(m.Keys, rename, j);
      RenamedValue(m, rename, order, items, k);
    }
  }

  lemma FaithfulOnlyIf(
    m: map<string, Option<string>>, rename: string -> string, order: seq<string>, items: seq<TextItem>)
    requires RenamedItems(m, rename, order, items) && IsSource(Entries(m), Some(items))
    requires AsMapOf(items) == Decoded(m)
    ensures Injective(m.Keys, rename) && SameValues(m, rename)
  {
    hide AsMapOf, Enumerates, Injective, Image, IsSource;
    ReuseNames(m, rename, order, items);
    assert Image(m.Keys, rename) == m.Keys;
    FullImageInjective(m.Keys, rename);
    forall k | k in m ensures rename(k) in m && m[rename(k)] == m[k] {
      RenamedValue(m, rename, order, items, k);
    }
  }

  /** A reused secret holds exactly the collected items if and only if the
      renaming merges no keys and renamed keys hold equal values. */
  lemma ReuseFaithful(
    m: map<string, Option<string>>, rename: string -> string, order: seq<string>, items: seq<TextItem>)
    requires RenamedItems(m, rename, order, items) && IsSource(Entries(m), Some(items))
    ensures AsMapOf(items) == Decoded(m) <==> Injective(m.Keys, rename) && SameValues(m, rename)
  {
    hide AsMapOf, Injective, RenamedItems, Decoded, SameValues, IsSource;
    if AsMapOf(items) == Decoded(m) {
      FaithfulOnlyIf(m, rename, order, items);
    } else if Injective(m.Keys, rename) && SameValues(m, rename) {
      FaithfulIf(m, rename, order, items);
    }
  }

  /** Templates that leave their own results alone, and templates that lengthen
      whatever they change, are faithful unless they merge keys. */
  lemma ReuseOfTemplates(
    m: map<string, Option<string>>, rename: string -> string, order: seq<string>, items: seq<TextItem>)
    requires RenamedItems(m, rename, order, items) && IsSource(Entries(m), Some(items)) && Injective(m.Keys, rename)
    requires Idempotent(m.Keys, rename) || Lengthens(m.Keys, rename)
    ensures AsMapOf(items) == Decoded(m)
  {
    hide AsMapOf, Decoded, Injective, Image, RenamedItems, Idempotent, Lengthens, IsSource;
    ReuseNames(m, rename, order, items);
    if Idempotent(m.Keys, rename) {
      IdempotentKeeps(m.Keys, rename);
    } else {
      LengtheningKeeps(m.Keys, rename);
    }
    FaithfulIf(m, rename, order, items);
  }

  /** A template that merges two keys is not faithful, although the secret is reused. */
  lemma MergedKeysLose(rename: string -> string, a: string, b: string)
    requires a != b && rename(a) == a && rename(b) == a
    ensures exists m, order, items ::
      RenamedItems(m, rename, order, items) && IsSource(Entries(m), Some(items)) && AsMapOf(items) != Decoded(m)
  {
    var m := map[a := Some("x"), b := Some("y")];
    var items := [TextItem(a, "x", true), TextItem(a, "y", true)];
    assert RenamedItems(m, rename, [a, b], items);
    assert IsSource(Entries(m), Some(items));
    MapNames(items, b);
    assert b in Decoded(m) && b !in AsMapOf(items);
  }
}
