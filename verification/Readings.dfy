/**
 What binding definitions read, told from the annotation to the values: which
 definition an annotation text becomes, and what each kind of definition yields,
 field by field and element by element.
 */
module Readings {

  import opened Pods
  import opened Annotations
  import opened Collect
  import opened Definitions

  // ---- Data of secrets and config maps ----

  /** A field of a secret counts with its decoding, one of a config map as it is. */
  predicate Says(kind: string, f: Option<Field>, text: string)
  {
    f.Some? && (if kind == "Secret" then f.value.decoded == Some(text) else f.value.text == text)
  }

  predicate Sayable(kind: string, f: Option<Field>)
  {
    f.Some? && (kind == "Secret" ==> f.value.decoded.Some?)
  }

  /** The value is the text of the field. */
  predicate Conveys(v: Value, kind: string, f: Option<Field>)
  {
    v.Leaf? && v.text && Says(kind, f, v.repr)
  }

  /** The definition needs another object, and there is none with data. */
  ghost predicate NoObject(d: Definition, w: World)
    requires d.StringFromDataField? || d.MapFromDataField?
  {
    var vs := w.find(d.path);
    vs.Some? && (|vs.value| == 1 ==>
      var o := w.read(d.objectType, if d.StringFromDataField? then w.name(vs.value[0]) else w.show(vs.value[0]));
      o.None? || !o.value.Data?)
  }

  lemma ObjectNeeded(d: Definition, w: World)
    requires d.StringFromDataField? || d.MapFromDataField?
    requires NoObject(d, w)
    ensures ApplyOf(d, w) == Failed
  {
  }

  /** A map definition yields the fields of the named object under their own
      keys, or just the source field under the output name; it fails exactly if
      a field is not a text or one that is taken cannot be decoded. */
  lemma MapOfFields(d: Definition, w: World, v: Value, fields: map<string, Option<Field>>)
    requires d.MapFromDataField? && w.find(d.path) == Some([v])
    requires w.read(d.objectType, w.show(v)) == Some(Data(fields))
    ensures var r := ApplyOf(d, w);
      && (r.Yields? <==>
            && (forall k :: k in fields ==> fields[k].Some?)
            && forall k :: k in fields && (d.sourceValue == "" || k == d.sourceValue) ==>
                 Sayable(d.objectType, fields[k]))
      && (r.Yields? ==>
            && r.value.Map?
            && (d.sourceValue == "" ==>
                  && r.value.entries.Keys == fields.Keys
                  && forall k :: k in fields ==> Conveys(r.value.entries[k], d.objectType, fields[k]))
            && (d.sourceValue != "" && d.sourceValue !in fields ==> r.value.entries == map[])
            && (d.sourceValue != "" && d.sourceValue in fields ==>
                  var out := if d.outputName != "" then d.outputName else d.sourceValue;
                  r.value.entries.Keys == {out} && Conveys(r.value.entries[out], d.objectType, fields[d.sourceValue])))
  {
    if forall k :: k in fields ==> fields[k].Some? {
      var texts := StringMap(fields).value;
      assert forall k :: k in fields ==> (Decode(d.objectType, texts[k]).Some? <==> Sayable(d.objectType, fields[k]));
    }
  }

  /** A string definition over data yields one field of the named object,
      without a name; it fails exactly if that is not there, not a text, or
      cannot be decoded. */
  lemma TextOfField(d: Definition, w: World, v: Value, fields: map<string, Option<Field>>)
    requires d.StringFromDataField? && w.find(d.path) == Some([v])
    requires w.read(d.objectType, w.name(v)) == Some(Data(fields))
    ensures var r := ApplyOf(d, w);
      && (r.Yields? <==> d.sourceKey in fields && Sayable(d.objectType, fields[d.sourceKey]))
      && (r.Yields? ==>
            && r.value.Map? && r.value.entries.Keys == {""}
            && Conveys(r.value.entries[""], d.objectType, fields[d.sourceKey]))
  {
  }

  // ---- Values of the resource itself ----

  /** Plain definitions yield their value, or the only one at the path; map
      definitions the map that it is. */
  lemma SingleValue(d: Definition, w: World)
    requires d.StringDefinition? || d.StringOfMap?
    ensures var r, vs := ApplyOf(d, w), w.find(d.path);
      if d.StringDefinition? && d.outputName == "" then r == Failed
      else if d.StringDefinition? && d.value != "" then r == Yields(Value.Map(map[d.outputName := Leaf(d.value, true)]))
      else if vs.None? then r == if d.optional then Yields(Nil) else Failed
      else if |vs.value| != 1 || (d.StringOfMap? && !vs.value[0].Map?) then r == Failed
      else r == Yields(if d.outputName == "" then vs.value[0] else Value.Map(map[d.outputName := vs.value[0]]))
  {
  }

  /** What is read at a path that finds nothing: nothing if that is optional,
      and otherwise an error. */
  lemma NothingFound(d: Definition, w: World)
    requires w.find(d.path).None? && (d.StringDefinition? ==> d.outputName != "" && d.value == "")
    ensures ApplyOf(d, w) == if d.optional then Yields(Nil) else Failed
  {
  }

  /** The values that are no slices, from left to right. */
  function Flat(vs: seq<Value>): seq<Value>
  {
    if vs == [] then [] else FlatOne(vs[0]) + Flat(vs[1..])
  }

  function FlatOne(v: Value): seq<Value>
  {
    if v.Slice? then Flat(v.elements) else [v]
  }

  lemma {:induction false} FlatConcat(xs: seq<Value>, ys: seq<Value>)
    ensures Flat(xs + ys) == Flat(xs) + Flat(ys)
  {
    if xs == [] {
      assert xs + ys == ys;
    } else {
      assert (xs + ys)[0] == xs[0] && (xs + ys)[1..] == xs[1..] + ys;
      FlatConcat(xs[1..], ys);
    }
  }

  lemma FlatLast(vs: seq<Value>)
    requires vs != []
    ensures Flat(vs) == Flat(vs[..|vs| - 1]) + FlatOne(vs[|vs| - 1])
  {
    var n := |vs| - 1;
    assert vs == vs[..n] + [vs[n]];
    FlatConcat(vs[..n], [vs[n]]);
    assert [vs[n]][1..] == [] && FlatOne(vs[n]) + [] == FlatOne(vs[n]);
  }

  /** The element is a map whose key shows as `n`. */
  predicate KeyShows(e: Value, key: string, show: Value -> string, n: string)
  {
    e.Map? && show(EntryOf(e.entries, key)) == n
  }

  /** Each element maps what its key shows to its source; the last one wins. */
  ghost predicate KeyedBy(m: map<string, Value>, es: seq<Value>, source: string, key: string, show: Value -> string)
  {
    && (forall n :: n in m <==> exists i :: 0 <= i < |es| && KeyShows(es[i], key, show, n))
    && (forall n, i :: n in m && LastShowing(es, key, show, n, i) ==> m[n] == EntryOf(es[i].entries, source))
  }

  predicate LastShowing(es: seq<Value>, key: string, show: Value -> string, n: string, i: int)
  {
    0 <= i < |es| && KeyShows(es[i], key, show, n) && forall j :: i < j < |es| ==> !KeyShows(es[j], key, show, n)
  }

  lemma KeyedBoth(a: map<string, Value>, b: map<string, Value>, xs: seq<Value>, ys: seq<Value>, source: string,
                  key: string, show: Value -> string)
    requires KeyedBy(a, xs, source, key, show) && KeyedBy(b, ys, source, key, show)
    ensures KeyedBy(a + b, xs + ys, source, key, show)
  {
    var zs := xs + ys;
    forall n ensures n in a + b <==> exists i :: 0 <= i < |zs| && KeyShows(zs[i], key, show, n) {
      if n in a {
        var i :| 0 <= i < |xs| && KeyShows(xs[i], key, show, n);
        assert zs[i] == xs[i];
      }
      if n in b {
        var i :| 0 <= i < |ys| && KeyShows(ys[i], key, show, n);
        assert zs[|xs| + i] == ys[i];
      }
      if i :| 0 <= i < |zs| && KeyShows(zs[i], key, show, n) {
        if i < |xs| { assert xs[i] == zs[i]; } else { assert ys[i - |xs|] == zs[i]; }
      }
    }
    forall n, i | n in a + b && LastShowing(zs, key, show, n, i) ensures (a + b)[n] == EntryOf(zs[i].entries, source) {
      if i >= |xs| {
        assert ys[i - |xs|] == zs[i];
        forall j | i - |xs| < j < |ys| ensures !KeyShows(ys[j], key, show, n) { assert ys[j] == zs[|xs| + j]; }
        assert LastShowing(ys, key, show, n, i - |xs|);
      } else {
        forall j | 0 <= j < |ys| ensures !KeyShows(ys[j], key, show, n) { assert ys[j] == zs[|xs| + j]; }
        forall j | i < j < |xs| ensures !KeyShows(xs[j], key, show, n) { assert xs[j] == zs[j]; }
        assert n !in b && xs[i] == zs[i] && LastShowing(xs, key, show, n, i);
      }
    }
  }

  lemma {:induction false} KeyedOne(v: Value, source: string, key: string, show: Value -> string)
    ensures KeyedBy(Keyed(v, source, key, show), FlatOne(v), source, key, show)
    decreases v, 0
  {
    if v.Slice? {
      KeyedAll(v.elements, source, key, show);
    } else if v.Map? {
      assert KeyShows(FlatOne(v)[0], key, show, show(EntryOf(v.entries, key)));
    }
  }

  lemma {:induction false} KeyedAll(vs: seq<Value>, source: string, key: string, show: Value -> string)
    ensures KeyedBy(KeyedOfAll(vs, source, key, show), Flat(vs), source, key, show)
    decreases vs, 1
  {
    hide KeyedBy, Keyed, FlatOne;
    if vs == [] {
      KeyedNothing(source, key, show);
    } else {
      var n := |vs| - 1;
      KeyedAll(vs[..n], source, key, show);
      KeyedOne(vs[n], source, key, show);
      FlatLast(vs);
      KeyedBoth(KeyedOfAll(vs[..n], source, key, show), Keyed(vs[n], source, key, show), Flat(vs[..n]), FlatOne(vs[n]),
        source, key, show);
    }
  }

  lemma KeyedNothing(source: string, key: string, show: Value -> string)
    ensures KeyedBy(map[], [], source, key, show)
  {
  }

  /** A definition over slices of maps yields an entry for each map: what its
      source key shows, with the value of its source, the last map winning. */
  lemma SliceOfMaps(d: Definition, w: World)
    requires d.SliceOfMapsFromPath? && w.find(d.path).Some?
    ensures var r := ApplyOf(d, w);
      && r.Yields? && r.value.Map?
      && (d.outputName == "" ==>
            KeyedBy(r.value.entries, Flat(w.find(d.path).value), d.sourceValue, d.sourceKey, w.show))
      && (d.outputName != "" ==>
            && r.value.entries.Keys == {d.outputName} && r.value.entries[d.outputName].Map?
            && KeyedBy(r.value.entries[d.outputName].entries, Flat(w.find(d.path).value), d.sourceValue, d.sourceKey,
                 w.show))
  {
    hide KeyedBy, KeyedOfAll, Flat;
    KeyedAll(w.find(d.path).value, d.sourceValue, d.sourceKey, w.show);
  }

  /** A text, or a map if a source is named. */
  predicate Contributes(e: Value, source: string)
  {
    if source == "" then e.Leaf? && e.text else e.Map?
  }

  function Contribution(e: Value, source: string): Value
    requires Contributes(e, source)
  {
    if source == "" then e else EntryOf(e.entries, source)
  }

  /** `at` are the places of the contributions, all of them and in order. */
  predicate TakenAt(r: seq<Value>, es: seq<Value>, source: string, at: seq<nat>)
  {
    && |at| == |r| && (forall i, j :: 0 <= i < j < |at| ==> at[i] < at[j])
    && (forall i :: 0 <= i < |at| ==>
          at[i] < |es| && Contributes(es[at[i]], source) && r[i] == Contribution(es[at[i]], source))
    && (forall j: nat :: j < |es| && Contributes(es[j], source) ==> j in at)
  }

  function Shifted(at: seq<nat>, n: nat): seq<nat>
  {
    seq(|at|, i requires 0 <= i < |at| => at[i] + n)
  }

  lemma TakenBoth(
    r: seq<Value>, s: seq<Value>, xs: seq<Value>, ys: seq<Value>, source: string, a: seq<nat>, b: seq<nat>)
    requires TakenAt(r, xs, source, a) && TakenAt(s, ys, source, b)
    ensures TakenAt(r + s, xs + ys, source, a + Shifted(b, |xs|))
  {
    hide Contributes, Contribution;
    var zs, at := xs + ys, a + Shifted(b, |xs|);
    forall i | 0 <= i < |at| ensures at[i] < |zs| && Contributes(zs[at[i]], source)
      ensures (r + s)[i] == Contribution(zs[at[i]], source)
    {
      if i >= |a| { assert zs[at[i]] == ys[b[i - |a|]]; } else { assert zs[at[i]] == xs[a[i]]; }
    }
    forall j: nat | j < |zs| && Contributes(zs[j], source) ensures j in at {
      if j < |xs| {
        assert zs[j] == xs[j] && j in a;
        var i :| 0 <= i < |a| && a[i] == j;
        assert at[i] == j;
      } else {
        assert zs[j] == ys[j - |xs|] && j - |xs| in b;
        var i :| 0 <= i < |b| && b[i] == j - |xs|;
        assert at[|a| + i] == j;
      }
    }
  }

  lemma {:induction false} TakenOne(v: Value, source: string) returns (at: seq<nat>)
    ensures TakenAt(SourceValues(v, source), FlatOne(v), source, at)
    decreases v, 0
  {
    if v.Slice? {
      at := TakenAll(v.elements, source);
    } else if Contributes(v, source) {
      at := [0];
      assert 0 in at;
    } else {
      at := [];
    }
  }

  lemma {:induction false} TakenAll(vs: seq<Value>, source: string) returns (at: seq<nat>)
    ensures TakenAt(SourceValuesOfAll(vs, source), Flat(vs), source, at)
    decreases vs, 1
  {
    hide Contributes, Contribution, SourceValues, FlatOne;
    if vs == [] {
      at := [];
    } else {
      var n := |vs| - 1;
      var a := TakenAll(vs[..n], source);
      var b := TakenOne(vs[n], source);
      FlatLast(vs);
      var xs, ys := Flat(vs[..n]), FlatOne(vs[n]);
      TakenBoth(SourceValuesOfAll(vs[..n], source), SourceValues(vs[n], source), xs, ys, source, a, b);
      at := a + Shifted(b, |Flat(vs[..n])|);
    }
  }

  /** A definition over slices of strings yields the texts, or the sources of
      the maps, in order and without a gap. */
  lemma SliceOfStrings(d: Definition, w: World) returns (at: seq<nat>)
    requires d.SliceOfStringsFromPath? && w.find(d.path).Some?
    ensures var r := ApplyOf(d, w);
      && r.Yields? && r.value.Map? && r.value.entries.Keys == {d.outputName}
      && r.value.entries[d.outputName].Slice?
      && TakenAt(r.value.entries[d.outputName].elements, Flat(w.find(d.path).value), d.sourceValue, at)
  {
    hide TakenAt, SourceValuesOfAll, Flat;
    at := TakenAll(w.find(d.path).value, d.sourceValue);
  }

  // ---- Annotations ----

  lemma {:induction false} OutputAfter(a: string, out: string)
    requires '/' !in a
    ensures OutputName(a + "/" + out) == out
  {
    var s := a + "/" + out;
    if a == "" {
      assert s[0] == '/' && s[1..] == out;
    } else {
      OutputAfter(a[1..], out);
      assert s[0] == a[0] && s[1..] == a[1..] + "/" + out;
    }
  }

  lemma AboutBinding(out: string)
    ensures var name := "service.binding/" + out;
      IsServiceBindingAnnotation(name) == Binding && OutputName(name) == out
  {
    var name := "service.binding/" + out;
    OutputAfter("service.binding", out);
    assert name == "service.binding" + "/" + out;
    assert name[7] == '.' && PROVISIONED[7] == 'b';
  }

  lemma {:induction false} CountIs(s: string, c: char)
    ensures CountChar(s, c) == multiset(s)[c]
  {
    if s != "" {
      CountIs(s[1..], c);
      assert s == [s[0]] + s[1..];
    }
  }

  /** The path has as many opening braces as closing ones, and some. */
  predicate BracesMatch(path: string)
  {
    multiset(path)['{'] == multiset(path)['}'] > 0
  }

  /** What element and object type make of an annotation. */
  function Resolved(out: string, path: string, optional: bool, element: string, object_: string, key: string,
                    value: string): Built
  {
    if element == "sliceOfMaps" then
      if key == "" || value == "" then BuildFails else Built(SliceOfMapsFromPath(out, path, optional, key, value))
    else if element == "sliceOfStrings" then Built(SliceOfStringsFromPath(out, path, optional, value))
    else if element == "string" && object_ == "string" then Built(StringDefinition(out, "", path, optional))
    else if element == "string" && object_ in {"Secret", "ConfigMap"} then
      Built(StringFromDataField(out, object_, path, optional, key))
    else if element == "map" && object_ == "string" then Built(StringOfMap(out, path, optional))
    else if element == "map" && object_ in {"Secret", "ConfigMap"} then
      Built(MapFromDataField(out, object_, path, optional, value))
    else BuildFails
  }

  lemma Reads(settings: seq<Setting>, out: string)
    requires settings != [] && forall i :: 0 <= i < |settings| ==> ',' !in settings[i].text
    requires Last(settings, Path).Some?
    ensures var parsed := Described(Last(settings, Path).value, Last(settings, Optional), Last(settings, ObjectType),
        Last(settings, ElementType), Last(settings, SourceKey), Last(settings, SourceValue));
      BuildOf("service.binding/" + out, Join(Printed(settings))) ==
        if parsed.Parsed? then DefinitionFor(parsed.model, out) else BuildFails
  {
    hide Raw, Split, Join, Printed, Last, Described, DefinitionFor, OutputName, IsServiceBindingAnnotation;
    AboutBinding(out);
    RoundTrip(settings);
  }

  /** Options without a path are an error. */
  lemma PathNeeded(settings: seq<Setting>, out: string)
    requires settings != [] && forall i :: 0 <= i < |settings| ==> ',' !in settings[i].text && settings[i].key != Path
    ensures BuildOf("service.binding/" + out, Join(Printed(settings))) == BuildFails
  {
    hide Raw, Split, Join, Printed, Last, Described, DefinitionFor, OutputName, IsServiceBindingAnnotation;
    AboutBinding(out);
    LastIn(settings, Path);
    RoundTrip(settings);
  }

  lemma {:induction false} LastIn(settings: seq<Setting>, k: Key)
    requires forall i :: 0 <= i < |settings| ==> settings[i].key != k
    ensures Last(settings, k).None?
  {
    if settings != [] { LastIn(settings[..|settings| - 1], k); }
  }

  predicate CommaFree(s: string)
  {
    ',' !in s
  }

  /** An annotation that spells out every option. */
  lemma SpelledOut(out: string, p: string, e: string, o: string, k: string, v: string, t: string)
    requires CommaFree(p) && CommaFree(e) && CommaFree(o) && CommaFree(k) && CommaFree(v) && CommaFree(t)
    ensures BuildOf("service.binding/" + out,
        "path=" + p + "," + ("elementType=" + e + "," + ("objectType=" + o + "," +
          ("sourceKey=" + k + "," + ("sourceValue=" + v + "," + ("optional=" + t))))))
      == if !BracesMatch(p) then BuildFails
         else Resolved(out, p, t == "true", e, if o == "" then "string" else o, k, v)
  {
    hide BuildOf, CountChar, Last, Join, Printed;
    var settings := [Setting(Path, p), Setting(ElementType, e), Setting(ObjectType, o), Setting(SourceKey, k),
      Setting(SourceValue, v), Setting(Optional, t)];
    SixPrinted(p, e, o, k, v, t);
    SixLast(p, e, o, k, v, t);
    Reads(settings, out);
    CountIs(p, '{');
    CountIs(p, '}');
  }

  lemma LastMore(settings: seq<Setting>, s: Setting)
    ensures forall k :: Last(settings + [s], k) == if s.key == k then Some(s.text) else Last(settings, k)
  {
    assert (settings + [s])[..|settings|] == settings;
  }

  lemma SixLast(p: string, e: string, o: string, k: string, v: string, t: string)
    ensures var settings := [Setting(Path, p), Setting(ElementType, e), Setting(ObjectType, o), Setting(SourceKey, k),
        Setting(SourceValue, v), Setting(Optional, t)];
      && Last(settings, Path) == Some(p) && Last(settings, ElementType) == Some(e)
      && Last(settings, ObjectType) == Some(o) && Last(settings, SourceKey) == Some(k)
      && Last(settings, SourceValue) == Some(v) && Last(settings, Optional) == Some(t)
  {
    hide Last;
    var a := [Setting(Path, p)];
    var b := a + [Setting(ElementType, e)];
    var c := b + [Setting(ObjectType, o)];
    var d := c + [Setting(SourceKey, k)];
    var f := d + [Setting(SourceValue, v)];
    assert [] + [Setting(Path, p)] == a;
    LastMore([], Setting(Path, p));
    LastMore(a, Setting(ElementType, e));
    LastMore(b, Setting(ObjectType, o));
    LastMore(c, Setting(SourceKey, k));
    LastMore(d, Setting(SourceValue, v));
    LastMore(f, Setting(Optional, t));
    assert f + [Setting(Optional, t)] == [Setting(Path, p), Setting(ElementType, e), Setting(ObjectType, o),
      Setting(SourceKey, k), Setting(SourceValue, v), Setting(Optional, t)];
  }

  lemma JoinMore(a: string, rest: seq<string>)
    requires rest != []
    ensures Join([a] + rest) == a + "," + Join(rest)
  {
    assert ([a] + rest)[1..] == rest;
  }

  lemma PrintedMore(s: Setting, rest: seq<Setting>)
    requires rest != []
    ensures Join(Printed([s] + rest)) == Prefix(s.key) + s.text + "," + Join(Printed(rest))
  {
    hide Join, Prefix;
    assert Printed([s] + rest) == [Prefix(s.key) + s.text] + Printed(rest);
    JoinMore(Prefix(s.key) + s.text, Printed(rest));
  }

  lemma SixPrinted(p: string, e: string, o: string, k: string, v: string, t: string)
    ensures Join(Printed([Setting(Path, p), Setting(ElementType, e), Setting(ObjectType, o), Setting(SourceKey, k),
        Setting(SourceValue, v), Setting(Optional, t)]))
      == "path=" + p + "," + ("elementType=" + e + "," + ("objectType=" + o + "," +
           ("sourceKey=" + k + "," + ("sourceValue=" + v + "," + ("optional=" + t)))))
  {
    hide Join, Printed, Prefix;
    Prefixes();
    var a, b, c := Setting(Path, p), Setting(ElementType, e), Setting(ObjectType, o);
    var d, f, g := Setting(SourceKey, k), Setting(SourceValue, v), Setting(Optional, t);
    assert [a] + [b, c, d, f, g] == [a, b, c, d, f, g] && [b] + [c, d, f, g] == [b, c, d, f, g];
    assert [c] + [d, f, g] == [c, d, f, g] && [d] + [f, g] == [d, f, g] && [f] + [g] == [f, g];
    PrintedMore(a, [b, c, d, f, g]);
    PrintedMore(b, [c, d, f, g]);
    PrintedMore(c, [d, f, g]);
    PrintedMore(d, [f, g]);
    PrintedMore(f, [g]);
    PrintedOne(g);
  }

  lemma PrintedOne(s: Setting)
    ensures Join(Printed([s])) == Prefix(s.key) + s.text
  {
  }

  lemma Prefixes()
    ensures Prefix(Path) == "path=" && Prefix(Optional) == "optional=" && Prefix(ObjectType) == "objectType="
    ensures Prefix(ElementType) == "elementType=" && Prefix(SourceKey) == "sourceKey="
    ensures Prefix(SourceValue) == "sourceValue="
  {
  }

  /** Without types an annotation is a string of the resource; with an object
      type alone a map of all data of the object, or of the field that a source
      key names. */
  lemma Abbreviated(out: string, p: string, o: string, k: string)
    requires CommaFree(p) && CommaFree(k) && o in {"Secret", "ConfigMap"} && BracesMatch(p)
    ensures BuildOf("service.binding/" + out, "path=" + p) == Built(StringDefinition(out, "", p, false))
    ensures BuildOf("service.binding/" + out, "path=" + p + "," + ("objectType=" + o)) ==
      Built(MapFromDataField(out, o, p, false, ""))
    ensures BuildOf("service.binding/" + out, "path=" + p + "," + ("objectType=" + o + "," + ("sourceKey=" + k))) ==
      Built(MapFromDataField(out, o, p, false, k))
  {
    hide BuildOf;
    JustPath(out, p);
    ObjectAlone(out, p, o);
    ObjectField(out, p, o, k);
  }

  lemma JustPath(out: string, p: string)
    requires CommaFree(p) && BracesMatch(p)
    ensures BuildOf("service.binding/" + out, "path=" + p) == Built(StringDefinition(out, "", p, false))
  {
    hide BuildOf, CountChar, Last, Join, Printed, Prefix;
    CountIs(p, '{');
    CountIs(p, '}');
    Prefixes();
    var a := Setting(Path, p);
    assert [] + [a] == [a];
    LastNone();
    LastMore([], a);
    PrintedOne(a);
    Reads([a], out);
  }

  lemma DescribedData(out: string, p: string, o: string, k: Option<string>)
    requires o in {"Secret", "ConfigMap"} && BracesMatch(p)
    ensures var parsed := Described(p, None, Some(o), None, k, None);
      parsed.Parsed? && DefinitionFor(parsed.model, out) ==
        Built(MapFromDataField(out, o, p, false, if k.Some? then k.value else ""))
  {
    hide CountChar;
    CountIs(p, '{');
    CountIs(p, '}');
  }

  lemma ObjectAlone(out: string, p: string, o: string)
    requires CommaFree(p) && o in {"Secret", "ConfigMap"} && BracesMatch(p)
    ensures BuildOf("service.binding/" + out, "path=" + p + "," + ("objectType=" + o)) ==
      Built(MapFromDataField(out, o, p, false, ""))
  {
    hide BuildOf, BracesMatch, Last, Join, Printed, Prefix, Described, DefinitionFor;
    DescribedData(out, p, o, None);
    Prefixes();
    var a, b := Setting(Path, p), Setting(ObjectType, o);
    assert [] + [a] == [a] && [a] + [b] == [a, b];
    LastNone();
    LastMore([], a);
    LastMore([a], b);
    PrintedOne(b);
    PrintedMore(a, [b]);
    Reads([a, b], out);
  }

  lemma ObjectField(out: string, p: string, o: string, k: string)
    requires CommaFree(p) && CommaFree(k) && o in {"Secret", "ConfigMap"} && BracesMatch(p)
    ensures BuildOf("service.binding/" + out, "path=" + p + "," + ("objectType=" + o + "," + ("sourceKey=" + k))) ==
      Built(MapFromDataField(out, o, p, false, k))
  {
    hide BuildOf, BracesMatch, Last, Join, Printed, Prefix, Described, DefinitionFor;
    DescribedData(out, p, o, Some(k));
    Prefixes();
    var a, b, c := Setting(Path, p), Setting(ObjectType, o), Setting(SourceKey, k);
    assert [] + [a] == [a] && [a] + [b] == [a, b] && [a, b] + [c] == [a, b, c] && [a] + [b, c] == [a, b, c];
    assert [b] + [c] == [b, c];
    LastNone();
    LastMore([], a);
    LastMore([a], b);
    LastMore([a, b], c);
    PrintedOne(c);
    PrintedMore(a, [b, c]);
    PrintedMore(b, [c]);
    Reads([a, b, c], out);
  }

  /** Which annotations are about bindings: those named `service.binding`, with
      or without a slash and an output name. Any other continuation is an error. */
  lemma WhichAnnotations(name: string, text: string)
    ensures name == "servicebinding.io/provisioned-service" ==> BuildOf(name, text) == NotBinding
    ensures !("service.binding" <= name) ==> BuildOf(name, text) == NotBinding
    ensures "service.binding" < name && name[15] != '/' ==> BuildOf(name, text) == BuildFails
    ensures name == "service.binding" || "service.binding/" <= name ==> BuildOf(name, text) != NotBinding
  {
    hide Raw, Split, Interpreted, OutputName;
    assert PROVISIONED[7] == 'b' && PREFIX[7] == '.' && PREFIX + "/" == "service.binding/";
    if "service.binding" < name && name[15] != '/' {
      assert (PREFIX + "/")[15] == '/';
      assert !(PREFIX + "/" <= name);
    }
    if "service.binding/" <= name {
      assert name[..15] == "service.binding/"[..15] == PREFIX;
      assert name[7] == "service.binding/"[7] == '.';
    }
  }

  lemma LastNone()
    ensures forall k :: Last([], k) == None
  {
  }
}
