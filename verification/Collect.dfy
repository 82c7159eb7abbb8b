/**
 Flattening of a collected value into binding items (`collectItems`): one item
 for every scalar and for every slice element, whatever the order in which map
 keys are visited.
 */
module Collect {

  import opened Sequences
  import opened Pods
  import opened Pipelines

  /** What reflection sees of a collected value: a leaf is a text or some other scalar. */
  datatype Value =
    | Nil
    | Leaf(repr: string, text: bool)
    | Slice(elements: seq<Value>)
    | Map(entries: map<string, Value>)

  datatype BindingItem = BindingItem(name: string, value: Value)

  // ---- Leaves and their names ----

  /** Where an item comes from: a path of map keys, and an index for a slice element. */
  datatype Address = Address(path: seq<string>, index: Option<nat>)

  function Digit(n: nat): char
    requires n < 10
  {
    "0123456789"[n]
  }

  function Digits(n: nat): string
  {
    if n < 10 then [Digit(n)] else Digits(n / 10) + [Digit(n % 10)]
  }

  predicate DigitChar(c: char)
  {
    '0' <= c <= '9'
  }

  function DigitOf(c: char): nat
    requires DigitChar(c)
  {
    c as int - '0' as int
  }

  /** What a decimal numeral stands for. */
  function Decimal(s: string): nat
    requires forall i :: 0 <= i < |s| ==> DigitChar(s[i])
  {
    if s == "" then 0 else Decimal(s[..|s| - 1]) * 10 + DigitOf(s[|s| - 1])
  }

  /** The digits of a number are a numeral for it, without leading zeros. */
  lemma {:induction false} DigitsDecimal(n: nat)
    ensures Digits(n) != "" && forall i :: 0 <= i < |Digits(n)| ==> DigitChar(Digits(n)[i])
    ensures Decimal(Digits(n)) == n && (Digits(n)[0] == '0' ==> n == 0)
  {
    var s := Digits(n);
    DigitValue(n % 10);
    if n < 10 {
      assert s == [Digit(n)] && s[..0] == "" && n % 10 == n;
    } else {
      DigitsDecimal(n / 10);
      assert s[..|s| - 1] == Digits(n / 10) && s[|s| - 1] == Digit(n % 10) && s[0] == Digits(n / 10)[0];
    }
  }

  lemma DigitValue(n: nat)
    requires n < 10
    ensures DigitChar(Digit(n)) && DigitOf(Digit(n)) == n
  {
    assert "0123456789"[0] == '0' && "0123456789"[1] == '1' && "0123456789"[2] == '2' && "0123456789"[3] == '3';
    assert "0123456789"[4] == '4' && "0123456789"[5] == '5' && "0123456789"[6] == '6' && "0123456789"[7] == '7';
    assert "0123456789"[8] == '8' && "0123456789"[9] == '9';
  }

  /** The elements of a slice are items of different names. */
  lemma ElementNames(prefix: string, k: string, elements: seq<Value>, i: nat, j: nat)
    requires i < |elements| && j < |elements| && i != j
    ensures var v := Slice(elements);
      && IsLeaf(v, Address([], Some(i))) && IsLeaf(v, Address([], Some(j)))
      && ItemAt(prefix, k, v, Address([], Some(i))).name != ItemAt(prefix, k, v, Address([], Some(j))).name
  {
    hide Digits, Decimal;
    DigitsDecimal(i);
    DigitsDecimal(j);
    var a, b := prefix + k + "_" + Digits(i), prefix + k + "_" + Digits(j);
    assert a[|prefix| + |k| + 1..] == Digits(i) && b[|prefix| + |k| + 1..] == Digits(j);
  }

  function ValueAt(v: Value, path: seq<string>): Option<Value>
    decreases |path|
  {
    if path == [] then Some(v)
    else if v.Map? && path[0] in v.entries then ValueAt(v.entries[path[0]], path[1..])
    else None
  }

  predicate IsLeaf(v: Value, a: Address)
  {
    var w := ValueAt(v, a.path);
    w.Some? &&
    match a.index
    case None => w.value.Leaf?
    case Some(i) => w.value.Slice? && i < |w.value.elements|
  }

  /** The prefix for the entries of a map that is found under `k`. */
  function Child(prefix: string, k: string): string
  {
    var p := prefix + k + "_";
    if p == "_" then "" else p
  }

  function PathName(prefix: string, k: string, path: seq<string>): string
    decreases |path|
  {
    if path == [] then prefix + k else PathName(Child(prefix, k), path[0], path[1..])
  }

  function ItemAt(prefix: string, k: string, v: Value, a: Address): BindingItem
    requires IsLeaf(v, a)
  {
    var w := ValueAt(v, a.path).value;
    match a.index
    case None => BindingItem(PathName(prefix, k, a.path), w)
    case Some(i) => BindingItem(PathName(prefix, k, a.path) + "_" + Digits(i), w.elements[i])
  }

  function Joined(keys: seq<string>): string
    requires keys != []
  {
    if |keys| == 1 then keys[0] else keys[0] + "_" + Joined(keys[1..])
  }

  lemma {:induction false} PrefixedNames(prefix: string, k: string, path: seq<string>)
    requires prefix + k != ""
    ensures PathName(prefix, k, path) == prefix + Joined([k] + path)
    decreases |path|
  {
    assert ([k] + path)[1..] == path;
    if path == [] {
      assert [k] + path == [k];
    } else {
      assert [path[0]] + path[1..] == path;
      var p := prefix + k + "_";
      assert |p| > 1 && p == Child(prefix, k) && p + path[0] != "";
      PrefixedNames(p, path[0], path[1..]);
      assert p + Joined(path) == prefix + (k + "_" + Joined(path));
    }
  }

  /** Names are the keys on the way joined by underscores. A root without a
      name, as owned resources and bound values have, does not contribute. */
  lemma NamesJoin(k: string, path: seq<string>)
    ensures k != "" ==> PathName("", k, path) == Joined([k] + path)
    ensures path != [] && path[0] != "" ==> PathName("", "", path) == Joined(path)
  {
    if k != "" {
      assert "" + k == k && "" + Joined([k] + path) == Joined([k] + path);
      PrefixedNames("", k, path);
    }
    if path != [] && path[0] != "" {
      assert [path[0]] + path[1..] == path && "" + path[0] == path[0] && "" + Joined(path) == Joined(path);
      PrefixedNames("", path[0], path[1..]);
    }
  }

  /** Some map on the way holds nil. */
  predicate HoldsNil(v: Value)
  {
    v.Map? && exists n :: n in v.entries && (v.entries[n].Nil? || HoldsNil(v.entries[n]))
  }

  // ---- Enumerations of leaves ----

  /** `t` lists leaves of `v` without repetition. */
  predicate Lists(t: seq<Address>, v: Value)
  {
    Distinct(t) && forall i :: 0 <= i < |t| ==> IsLeaf(v, t[i])
  }

  /** All leaves of `v` are in `t`. */
  ghost predicate Complete(t: seq<Address>, v: Value)
  {
    forall a :: IsLeaf(v, a) ==> a in t
  }

  /** The items that an enumeration stands for. */
  function ItemsOf(prefix: string, k: string, v: Value, t: seq<Address>): seq<BindingItem>
    requires Lists(t, v)
  {
    seq(|t|, i requires 0 <= i < |t| => ItemAt(prefix, k, v, t[i]))
  }

  function Prefixed(n: string, t: seq<Address>): seq<Address>
  {
    seq(|t|, i requires 0 <= i < |t| => Address([n] + t[i].path, t[i].index))
  }

  /** Leaves of an entry are leaves of the map, with the same items. */
  lemma LeafUnder(prefix: string, k: string, v: Value, n: string, a: Address)
    requires v.Map? && n in v.entries
    ensures IsLeaf(v, Address([n] + a.path, a.index)) <==> IsLeaf(v.entries[n], a)
    ensures IsLeaf(v.entries[n], a) ==>
      ItemAt(prefix, k, v, Address([n] + a.path, a.index)) == ItemAt(Child(prefix, k), n, v.entries[n], a)
  {
    assert ([n] + a.path)[0] == n && ([n] + a.path)[1..] == a.path;
    assert PathName(prefix, k, [n] + a.path) == PathName(Child(prefix, k), n, a.path);
  }

  lemma ListsUnder(prefix: string, k: string, v: Value, n: string, t: seq<Address>)
    requires v.Map? && n in v.entries && Lists(t, v.entries[n])
    ensures Lists(Prefixed(n, t), v)
    ensures ItemsOf(prefix, k, v, Prefixed(n, t)) == ItemsOf(Child(prefix, k), n, v.entries[n], t)
  {
    hide IsLeaf, ItemAt;
    var u := Prefixed(n, t);
    forall i | 0 <= i < |t|
      ensures IsLeaf(v, u[i]) && ItemAt(prefix, k, v, u[i]) == ItemAt(Child(prefix, k), n, v.entries[n], t[i])
    {
      LeafUnder(prefix, k, v, n, t[i]);
    }
    forall i, j | 0 <= i < j < |u| ensures u[i] != u[j] {
      assert u[i].path[1..] == t[i].path && u[j].path[1..] == t[j].path;
    }
  }

  /** Every leaf listed lies under one of the keys. */
  predicate Among(t: seq<Address>, keys: set<string>)
  {
    forall i :: 0 <= i < |t| ==> t[i].path != [] && t[i].path[0] in keys
  }

  ghost predicate CompleteUnder(t: seq<Address>, v: Value, keys: set<string>)
  {
    forall a :: IsLeaf(v, a) && a.path != [] && a.path[0] in keys ==> a in t
  }

  /** Appending the leaves of a new key. */
  lemma OneMoreKey(prefix: string, k: string, v: Value, done: set<string>, t: seq<Address>, n: string, u: seq<Address>)
    requires v.Map? && n in v.entries && n !in done
    requires Lists(t, v) && Among(t, done) && Lists(u, v.entries[n])
    ensures Lists(t + Prefixed(n, u), v) && Among(t + Prefixed(n, u), done + {n})
    ensures ItemsOf(prefix, k, v, t + Prefixed(n, u)) ==
      ItemsOf(prefix, k, v, t) + ItemsOf(Child(prefix, k), n, v.entries[n], u)
    ensures CompleteUnder(t, v, done) && Complete(u, v.entries[n]) ==> CompleteUnder(t + Prefixed(n, u), v, done + {n})
  {
    hide IsLeaf, ItemAt;
    ListsUnder(prefix, k, v, n, u);
    if CompleteUnder(t, v, done) && Complete(u, v.entries[n]) {
      forall a | IsLeaf(v, a) && a.path != [] && a.path[0] in done + {n} ensures a in t + Prefixed(n, u) {
        if a.path[0] == n {
          var b := Address(a.path[1..], a.index);
          assert [n] + b.path == a.path;
          LeafUnder(prefix, k, v, n, b);
          var i :| 0 <= i < |u| && u[i] == b;
          assert Prefixed(n, u)[i] == a;
        }
      }
    }
  }

  /** A map has leaves under its keys only. */
  lemma MapLeaves(v: Value, t: seq<Address>)
    requires v.Map? && CompleteUnder(t, v, v.entries.Keys)
    ensures Complete(t, v)
  {
    forall a | IsLeaf(v, a) ensures a in t {
      assert a.path != [];
    }
  }

  /** Some entry among the given keys holds nil. */
  predicate HeldAmong(v: Value, keys: set<string>)
    requires v.Map? && keys <= v.entries.Keys
  {
    exists n :: n in keys && HoldsNil(v.entries[n])
  }

  lemma NoKeys(prefix: string, k: string, v: Value)
    requires v.Map?
    ensures Lists([], v) && Among([], {}) && CompleteUnder([], v, {}) && ItemsOf(prefix, k, v, []) == []
    ensures !HeldAmong(v, {})
  {
  }

  lemma OneMoreHeld(v: Value, done: set<string>, n: string)
    requires v.Map? && n in v.entries && done <= v.entries.Keys
    ensures HeldAmong(v, done + {n}) <==> HeldAmong(v, done) || HoldsNil(v.entries[n])
  {
    if HoldsNil(v.entries[n]) { assert n in done + {n}; }
    if HeldAmong(v, done) {
      var m :| m in done && HoldsNil(v.entries[m]);
      assert m in done + {n};
    }
  }

  lemma AllKeys(v: Value)
    requires v.Map? && forall n :: n in v.entries ==> !v.entries[n].Nil?
    ensures HoldsNil(v) <==> HeldAmong(v, v.entries.Keys)
  {
  }

  class Collector {
    const flow: FlowCtrl
    var items: seq<BindingItem>

    constructor (flow: FlowCtrl)
      ensures this.flow == flow && items == []
    {
      this.flow := flow;
      items := [];
    }

    method AddBindingItem(item: BindingItem)
      modifies this
      ensures items == old(items) + [item]
    {
      items := items + [item];
    }

    /** collectItems. Whatever the order of keys: the items added are those of
        distinct leaves; a map that holds nil is reported and stops the run;
        and if there is none, no leaf is missed. */
    method CollectItems(prefix: string, k: string, val: Value) returns (panics: bool, ghost trail: seq<Address>)
      requires flow.Valid()
      modifies this, flow
      decreases val
      ensures panics <==> val.Nil?
      ensures Lists(trail, val) && items == old(items) + ItemsOf(prefix, k, val, trail)
      ensures flow.Valid() && MoreErrors(old(flow.trace), flow.trace)
      ensures HoldsNil(val) <==> flow.trace != old(flow.trace)
      ensures !HoldsNil(val) ==> Complete(trail, val)
    {
      panics, trail := false, [];
      NoMore(flow.trace);
      match val {
        case Nil =>
          panics := true;
          assert items == old(items) + [];
        case Leaf(_, _) =>
          AddBindingItem(BindingItem(prefix + k, val));
          trail := [Address([], None)];
        case Slice(elements) =>
          trail := CollectSlice(prefix + k, elements, prefix, k);
        case Map(entries) =>
          trail := CollectMap(prefix, k, val);
      }
    }

    method CollectSlice(name: string, elements: seq<Value>, ghost prefix: string, ghost k: string)
      returns (ghost trail: seq<Address>)
      requires name == prefix + k
      modifies this
      ensures Lists(trail, Slice(elements)) && Complete(trail, Slice(elements))
      ensures items == old(items) + ItemsOf(prefix, k, Slice(elements), trail)
    {
      trail := [];
      var i := 0;
      while i < |elements|
        invariant 0 <= i <= |elements| && |trail| == i
        invariant forall j :: 0 <= j < i ==> trail[j] == Address([], Some(j))
        invariant items == old(items) + ItemsOf(prefix, k, Slice(elements), trail)
      {
        AddBindingItem(BindingItem(name + "_" + Digits(i), elements[i]));
        trail := trail + [Address([], Some(i))];
        i := i + 1;
      }
      forall a | IsLeaf(Slice(elements), a) ensures a in trail {
        assert a.path == [];
        assert trail[a.index.value] == a;
      }
    }

    method CollectMap(prefix: string, k: string, val: Value) returns (ghost trail: seq<Address>)
      requires val.Map? && flow.Valid()
      modifies this, flow
      decreases val, 0
      ensures Lists(trail, val) && items == old(items) + ItemsOf(prefix, k, val, trail)
      ensures flow.Valid() && MoreErrors(old(flow.trace), flow.trace)
      ensures HoldsNil(val) <==> flow.trace != old(flow.trace)
      ensures !HoldsNil(val) ==> Complete(trail, val)
    {
      hide IsLeaf, ItemAt, Lists, ItemsOf, Among, Complete, CompleteUnder, PathName, Prefixed, HeldAmong;
      var p := prefix + k + "_";
      if p == "_" { p := ""; }
      trail := [];
      var keys := val.entries.Keys;
      ghost var done := {};
      ghost var start := items;
      NoMore(flow.trace);
      NoKeys(prefix, k, val);
      while keys != {}
        invariant keys <= val.entries.Keys && done == val.entries.Keys - keys
        invariant Lists(trail, val) && Among(trail, done)
        invariant items == start + ItemsOf(prefix, k, val, trail)
        invariant forall n :: n in done ==> !val.entries[n].Nil?
        invariant !HeldAmong(val, done) ==> CompleteUnder(trail, val, done)
        invariant flow.Valid() && MoreErrors(old(flow.trace), flow.trace)
        invariant HeldAmong(val, done) <==> flow.trace != old(flow.trace)
        decreases |keys|
      {
        var n :| n in keys;
        keys := keys - {n};
        ghost var before := flow.trace;
        if val.entries[n].Nil? {
          NoMore(before);
          flow.Error();
          flow.StopProcessing();
          MoreAndMore(old(flow.trace), before, flow.trace);
          return;
        }
        var _, more := CollectItems(p, n, val.entries[n]);
        MoreAndMore(old(flow.trace), before, flow.trace);
        OneMoreKey(prefix, k, val, done, trail, n, more);
        OneMoreHeld(val, done, n);
        trail := trail + Prefixed(n, more);
        done := done + {n};
      }
      assert done == val.entries.Keys;
      AllKeys(val);
      if !HoldsNil(val) { MapLeaves(val, trail); }
    }

    /** The body of BindingItems for one bound value: anything but a map ends
        the handler with a retry, and exactly nil directly under a root key makes
        it panic. The entries are collected as if from a nameless root. */
    method CollectBinding(val: Value) returns (panics: bool, ghost trail: seq<Address>)
      requires flow.Valid()
      modifies this, flow
      ensures flow.Valid()
      ensures !val.Map? ==> !panics && items == old(items) && flow.trace == old(flow.trace) + [RetryNow(true)]
      ensures val.Map? ==> (panics <==> exists n :: n in val.entries && val.entries[n].Nil?)
      ensures val.Map? ==> Lists(trail, val) && items == old(items) + ItemsOf("", "", val, trail)
      ensures val.Map? ==> MoreErrors(old(flow.trace), flow.trace)
      ensures val.Map? && !panics ==> (HoldsNil(val) <==> flow.trace != old(flow.trace))
      ensures val.Map? && !HoldsNil(val) ==> Complete(trail, val)
    {
      hide IsLeaf, ItemAt, Lists, ItemsOf, Among, Complete, CompleteUnder, PathName, Prefixed, HeldAmong;
      panics, trail := false, [];
      if !val.Map? {
        flow.RetryProcessing(true);
        return;
      }
      var keys := val.entries.Keys;
      ghost var done := {};
      ghost var start := items;
      NoMore(flow.trace);
      NoKeys("", "", val);
      while keys != {}
        invariant keys <= val.entries.Keys && done == val.entries.Keys - keys
        invariant Lists(trail, val) && Among(trail, done)
        invariant items == start + ItemsOf("", "", val, trail)
        invariant forall n :: n in done ==> !val.entries[n].Nil?
        invariant !HeldAmong(val, done) ==> CompleteUnder(trail, val, done)
        invariant flow.Valid() && MoreErrors(old(flow.trace), flow.trace)
        invariant HeldAmong(val, done) <==> flow.trace != old(flow.trace)
        decreases |keys|
      {
        var n :| n in keys;
        keys := keys - {n};
        if val.entries[n].Nil? { return true, trail; }
        ghost var before := flow.trace;
        var _, more := CollectItems("", n, val.entries[n]);
        MoreAndMore(old(flow.trace), before, flow.trace);
        OneMoreKey("", "", val, done, trail, n, more);
        OneMoreHeld(val, done, n);
        trail := trail + Prefixed(n, more);
        done := done + {n};
      }
      assert done == val.entries.Keys;
      AllKeys(val);
      if !HoldsNil(val) { MapLeaves(val, trail); }
    }
  }
}
