/**
 Binding definitions built from annotations, and what they read from a service
 resource: every successful application yields a map, except that an optional
 definition yields nothing when its path finds nothing.
 */
module Definitions {

  import opened Pods
  import opened Annotations
  import opened Collect
  import opened Pipelines
  import Secrets

  datatype Definition =
    | StringDefinition(outputName: string, value: string, path: string, optional: bool)
    | StringFromDataField(outputName: string, objectType: string, path: string, optional: bool, sourceKey: string)
    | MapFromDataField(outputName: string, objectType: string, path: string, optional: bool, sourceValue: string)
    | StringOfMap(outputName: string, path: string, optional: bool)
    | SliceOfMapsFromPath(outputName: string, path: string, optional: bool, sourceKey: string, sourceValue: string)
    | SliceOfStringsFromPath(outputName: string, path: string, optional: bool, sourceValue: string)

  datatype Built = NotBinding | BuildFails | Built(definition: Definition)

  const PREFIX := "service.binding"
  const PROVISIONED := "servicebinding.io/provisioned-service"

  datatype Kinship = Binding | Unrelated | Malformed

  function IsServiceBindingAnnotation(name: string): Kinship
  {
    if name == PROVISIONED then Unrelated
    else if name == PREFIX then Binding
    else if PREFIX <= name then (if PREFIX + "/" <= name then Binding else Malformed)
    else Unrelated
  }

  /** What follows the first slash. */
  function OutputName(name: string): string
  {
    if name == "" then "" else if name[0] == '/' then name[1..] else OutputName(name[1..])
  }

  function DefinitionFor(m: Model, out: string): Built
  {
    var hasData := m.objectType == SECRET || m.objectType == CONFIG_MAP;
    if (m.elementType == STRING && m.objectType == STRING) || m.value != "" then
      Built(StringDefinition(out, m.value, m.path, m.optional))
    else if m.elementType == STRING && hasData then
      Built(StringFromDataField(out, m.objectType, m.path, m.optional, m.sourceKey))
    else if m.elementType == MAP && hasData then
      Built(MapFromDataField(out, m.objectType, m.path, m.optional, m.sourceValue))
    else if m.elementType == MAP && m.objectType == STRING then Built(StringOfMap(out, m.path, m.optional))
    else if m.elementType == SLICE_OF_MAPS then
      Built(SliceOfMapsFromPath(out, m.path, m.optional, m.sourceKey, m.sourceValue))
    else if m.elementType == SLICE_OF_STRINGS then
      Built(SliceOfStringsFromPath(out, m.path, m.optional, m.sourceValue))
    else BuildFails
  }

  /** What an annotation defines. */
  function BuildOf(name: string, text: string): Built
  {
    match IsServiceBindingAnnotation(name)
    case Unrelated => NotBinding
    case Malformed => BuildFails
    case Binding =>
      var parsed := Interpreted(Raw(Split(text)), text);
      if parsed.Parsed? then DefinitionFor(parsed.model, OutputName(name)) else BuildFails
  }

  /** Build. A definition that reads the resource has a path with balanced
      braces, one that reads other objects names their kind, and one over a
      slice of maps names its keys. */
  method Build(name: string, text: string) returns (r: Built)
    ensures r == BuildOf(name, text)
    ensures r.NotBinding? <==> IsServiceBindingAnnotation(name) == Unrelated
    ensures r.Built? ==>
      var d := r.definition;
      && d.outputName == OutputName(name)
      && (Balanced(d.path) || (d.StringDefinition? && d.value == text && text != ""))
      && (d.StringFromDataField? || d.MapFromDataField? ==> d.objectType == SECRET || d.objectType == CONFIG_MAP)
      && (d.SliceOfMapsFromPath? ==> d.sourceKey != "" && d.sourceValue != "")
    ensures IsServiceBindingAnnotation(name) == Binding && Raw(Split(text)) == map[] && text != "" ==>
      r == Built(StringDefinition(OutputName(name), text, "", false))
  {
    hide Raw, Split, Balanced;
    match IsServiceBindingAnnotation(name) {
      case Unrelated => return NotBinding;
      case Malformed => return BuildFails;
      case Binding =>
    }
    var parsed := NewModel(text);
    if !parsed.Parsed? { return BuildFails; }
    return DefinitionFor(parsed.model, OutputName(name));
  }

  // ---- Applying a definition ----

  /** A text in the data of a secret or config map, and its decoding. */
  datatype Field = Field(text: string, decoded: Option<string>)

  /** The data of another object: values that are not texts have no field. */
  datatype Other = NoData | BadData | Data(fields: map<string, Option<Field>>)

  /** What a definition can see: the values at a path, and other objects by kind
      and name. A value is turned into text by reflection (`name`) or by
      formatting (`show`), which need not agree. */
  datatype World = World(
    find: string -> Option<seq<Value>>,
    read: (string, string) -> Option<Other>,
    name: Value -> string,
    show: Value -> string)

  datatype Applied = Failed | Yields(value: Value)

  function Decode(kind: string, f: Field): Option<string>
  {
    if kind == SECRET then f.decoded else Some(f.text)
  }

  function Text(s: string): Value
  {
    Leaf(s, true)
  }

  // ---- Sources ----

  /** Texts, or entries of maps, in order; other scalars are dropped. */
  function SourceValues(v: Value, source: string): seq<Value>
  {
    match v
    case Map(entries) => if source != "" then [EntryOf(entries, source)] else []
    case Slice(elements) => SourceValuesOfAll(elements, source)
    case Leaf(_, text) => if source == "" && text then [v] else []
    case Nil => []
  }

  function SourceValuesOfAll(vs: seq<Value>, source: string): seq<Value>
  {
    if vs == [] then [] else SourceValuesOfAll(vs[..|vs| - 1], source) + SourceValues(vs[|vs| - 1], source)
  }

  function EntryOf(entries: map<string, Value>, key: string): Value
  {
    if key in entries then entries[key] else Nil
  }

  method CollectSourceValues(v: Value, source: string) returns (r: seq<Value>)
    ensures r == SourceValues(v, source)
    decreases v
  {
    r := [];
    match v {
      case Map(entries) => if source != "" { r := [EntryOf(entries, source)]; }
      case Slice(elements) =>
        var i := 0;
        while i < |elements|
          invariant 0 <= i <= |elements| && r == SourceValuesOfAll(elements[..i], source)
        {
          assert elements[..i + 1][..i] == elements[..i];
          var more := CollectSourceValues(elements[i], source);
          r := r + more;
          i := i + 1;
        }
        assert elements[..i] == elements;
      case Leaf(_, text) => if source == "" && text { r := [v]; }
      case Nil =>
    }
  }

  function Keyed(v: Value, source: string, key: string, show: Value -> string): map<string, Value>
  {
    match v
    case Map(entries) => map[show(EntryOf(entries, key)) := EntryOf(entries, source)]
    case Slice(elements) => KeyedOfAll(elements, source, key, show)
    case _ => map[]
  }

  function KeyedOfAll(vs: seq<Value>, source: string, key: string, show: Value -> string): map<string, Value>
  {
    if vs == [] then map[] else KeyedOfAll(vs[..|vs| - 1], source, key, show) + Keyed(vs[|vs| - 1], source, key, show)
  }

  method CollectSourceValuesWithKey(v: Value, source: string, key: string, show: Value -> string)
    returns (r: map<string, Value>)
    ensures r == Keyed(v, source, key, show)
    decreases v
  {
    r := map[];
    match v {
      case Map(entries) => r := map[show(EntryOf(entries, key)) := EntryOf(entries, source)];
      case Slice(elements) =>
        var i := 0;
        while i < |elements|
          invariant 0 <= i <= |elements| && r == KeyedOfAll(elements[..i], source, key, show)
        {
          assert elements[..i + 1][..i] == elements[..i];
          var more := CollectSourceValuesWithKey(elements[i], source, key, show);
          r := Secrets.MergeMaps(r, more);
          i := i + 1;
        }
        assert elements[..i] == elements;
      case Leaf(_, _) =>
      case Nil =>
    }
  }

  // ---- Apply ----

  /** Is the field one that a map definition copies? */
  predicate Copied(d: Definition, k: string)
    requires d.MapFromDataField?
  {
    d.sourceValue == "" || k == d.sourceValue
  }

  function Renamed(d: Definition, k: string): string
    requires d.MapFromDataField?
  {
    if d.sourceValue != "" && d.outputName != "" then d.outputName else k
  }

  /** All fields that are copied can be decoded. */
  predicate Decodable(d: Definition, fields: map<string, Field>)
    requires d.MapFromDataField?
  {
    forall k :: k in fields && Copied(d, k) ==> Decode(d.objectType, fields[k]).Some?
  }

  function CopiedMap(d: Definition, fields: map<string, Field>): map<string, Value>
    requires d.MapFromDataField? && Decodable(d, fields)
  {
    if d.sourceValue == "" then map k | k in fields :: Text(Decode(d.objectType, fields[k]).value)
    else if d.sourceValue in fields then
      map[Renamed(d, d.sourceValue) := Text(Decode(d.objectType, fields[d.sourceValue]).value)]
    else map[]
  }

  /** The loop of mapFromDataFieldDefinition, in any order of the fields: it
      fails if and only if a field that is copied cannot be decoded. */
  method CopyFields(d: Definition, fields: map<string, Field>) returns (r: Option<map<string, Value>>)
    requires d.MapFromDataField?
    ensures r == if Decodable(d, fields) then Some(CopiedMap(d, fields)) else None
  {
    var out: map<string, Value> := map[];
    var keys := fields.Keys;
    while keys != {}
      invariant keys <= fields.Keys
      invariant forall k :: k in fields && k !in keys && Copied(d, k) ==> Decode(d.objectType, fields[k]).Some?
      invariant d.sourceValue == "" ==>
        out == map k | k in fields && k !in keys && Decode(d.objectType, fields[k]).Some? ::
                 Text(Decode(d.objectType, fields[k]).value)
      invariant d.sourceValue != "" && (d.sourceValue !in fields || d.sourceValue in keys) ==> out == map[]
      invariant d.sourceValue != "" && d.sourceValue in fields && d.sourceValue !in keys ==>
        out == map[Renamed(d, d.sourceValue) := Text(Decode(d.objectType, fields[d.sourceValue]).value)]
      decreases |keys|
    {
      var k :| k in keys;
      keys := keys - {k};
      if Copied(d, k) {
        var n := Decode(d.objectType, fields[k]);
        if n.None? { return None; }
        out := out[Renamed(d, k) := Text(n.value)];
      }
    }
    assert Decodable(d, fields);
    assert d.sourceValue == "" ==> forall k :: k in fields ==> Copied(d, k);
    assert out == CopiedMap(d, fields);
    return Some(out);
  }

  /** NestedStringMap: every value must be a text. */
  function StringMap(fields: map<string, Option<Field>>): Option<map<string, Field>>
  {
    if forall k :: k in fields ==> fields[k].Some? then Some(map k | k in fields :: fields[k].value) else None
  }

  /** The data of the object that the only value at the path names. */
  function OtherFields(kind: string, vs: seq<Value>, w: World, name: Value -> string)
    : Option<map<string, Option<Field>>>
  {
    if |vs| != 1 then None
    else
      var o := w.read(kind, name(vs[0]));
      if o.None? || !o.value.Data? then None else Some(o.value.fields)
  }

  predicate NonExistingOptional(d: Definition, v: Value)
  {
    d.optional && v.Nil?
  }

  /** Does the definition give up because its path finds nothing? */
  predicate NothingThere(d: Definition, w: World)
  {
    d.optional && w.find(d.path).None? && (d.StringDefinition? ==> d.outputName != "" && d.value == "")
  }

  /** What a definition makes of the values at its path. */
  function Made(d: Definition, vs: seq<Value>, w: World): Applied
  {
    match d
    case StringDefinition(out, _, _, _) => if |vs| != 1 then Failed else Yields(Value.Map(map[out := vs[0]]))
    case StringFromDataField(_, kind, _, _, key) =>
      var fields := OtherFields(kind, vs, w, w.name);
      if fields.None? || key !in fields.value || fields.value[key].None? then Failed
      else
        var text := Decode(kind, fields.value[key].value);
        if text.None? then Failed else Yields(Value.Map(map["" := Text(text.value)]))
    case MapFromDataField(_, kind, _, _, _) =>
      var fields := OtherFields(kind, vs, w, w.show);
      if fields.None? || StringMap(fields.value).None? then Failed
      else
        var texts := StringMap(fields.value).value;
        if Decodable(d, texts) then Yields(Value.Map(CopiedMap(d, texts))) else Failed
    case StringOfMap(out, _, _) =>
      if |vs| != 1 || !vs[0].Map? then Failed
      else Yields(if out != "" then Value.Map(map[out := vs[0]]) else vs[0])
    case SliceOfMapsFromPath(out, _, _, key, source) =>
      var m := Value.Map(KeyedOfAll(vs, source, key, w.show));
      Yields(if out == "" then m else Value.Map(map[out := m]))
    case SliceOfStringsFromPath(out, _, _, source) =>
      Yields(Value.Map(map[out := Slice(SourceValuesOfAll(vs, source))]))
  }

  function ApplyOf(d: Definition, w: World): Applied
  {
    if d.StringDefinition? && d.outputName == "" then Failed
    else if d.StringDefinition? && d.value != "" then Yields(Value.Map(map[d.outputName := Text(d.value)]))
    else if w.find(d.path).Some? then Made(d, w.find(d.path).value, w)
    else if d.optional then Yields(Nil)
    else Failed
  }

  /** A definition yields a map or nothing, and nothing exactly when it is
      optional and its path finds nothing, which is when it is skipped. */
  lemma MapOrNothing(d: Definition, w: World)
    ensures ApplyOf(d, w).Yields? && !NonExistingOptional(d, ApplyOf(d, w).value) ==> ApplyOf(d, w).value.Map?
    ensures ApplyOf(d, w) == Yields(Nil) <==> NothingThere(d, w)
    ensures ApplyOf(d, w).Yields? ==> (NonExistingOptional(d, ApplyOf(d, w).value) <==> NothingThere(d, w))
  {
  }

  /** Apply, for all kinds of definitions. */
  method Apply(d: Definition, w: World) returns (r: Applied)
    ensures r == ApplyOf(d, w)
  {
    if d.StringDefinition? {
      if d.outputName == "" { return Failed; }
      if d.value != "" { return Yields(Value.Map(map[d.outputName := Text(d.value)])); }
    }
    var found := w.find(d.path);
    if found.None? { return if d.optional then Yields(Nil) else Failed; }
    var vs := found.value;
    match d {
      case StringDefinition(out, _, _, _) =>
        if |vs| != 1 { return Failed; }
        return Yields(Value.Map(map[out := vs[0]]));
      case StringFromDataField(_, kind, _, _, key) =>
        var fields := OtherFields(kind, vs, w, w.name);
        if fields.None? || key !in fields.value || fields.value[key].None? { return Failed; }
        var text := Decode(kind, fields.value[key].value);
        if text.None? { return Failed; }
        return Yields(Value.Map(map["" := Text(text.value)]));
      case MapFromDataField(_, kind, _, _, _) =>
        var fields := OtherFields(kind, vs, w, w.show);
        if fields.None? || StringMap(fields.value).None? { return Failed; }
        var copied := CopyFields(d, StringMap(fields.value).value);
        if copied.None? { return Failed; }
        return Yields(Value.Map(copied.value));
      case StringOfMap(out, _, _) =>
        if |vs| != 1 || !vs[0].Map? { return Failed; }
        return Yields(if out != "" then Value.Map(map[out := vs[0]]) else vs[0]);
      case SliceOfMapsFromPath(out, _, _, key, source) =>
        var m := CollectSourceValuesWithKey(Slice(vs), source, key, w.show);
        return Yields(if out == "" then Value.Map(m) else Value.Map(map[out := Value.Map(m)]));
      case SliceOfStringsFromPath(out, _, _, source) =>
        var all := CollectSourceValues(Slice(vs), source);
        return Yields(Value.Map(map[out := Slice(all)]));
    }
  }

  /** The definition applies, and no map of its value holds nil. */
  predicate Smooth(d: Definition, w: World)
  {
    ApplyOf(d, w).Yields? && !HoldsNil(ApplyOf(d, w).value)
  }

  /** Every leaf that the definition yields is an item. */
  ghost predicate Covered(d: Definition, w: World, items: seq<BindingItem>)
  {
    ApplyOf(d, w).Yields? && ApplyOf(d, w).value.Map? ==>
      var v := ApplyOf(d, w).value;
      forall a :: IsLeaf(v, a) ==> ItemAt("", "", v, a) in items
  }

  lemma TrailCovers(d: Definition, w: World, trail: seq<Address>, before: seq<BindingItem>)
    requires ApplyOf(d, w).Yields? && ApplyOf(d, w).value.Map?
    requires Lists(trail, ApplyOf(d, w).value) && Complete(trail, ApplyOf(d, w).value)
    ensures Covered(d, w, before + ItemsOf("", "", ApplyOf(d, w).value, trail))
  {
    hide IsLeaf, ItemAt, ApplyOf;
    var v := ApplyOf(d, w).value;
    var items := before + ItemsOf("", "", v, trail);
    forall a | IsLeaf(v, a) ensures ItemAt("", "", v, a) in items {
      var i :| 0 <= i < |trail| && trail[i] == a;
      assert items[|before| + i] == ItemAt("", "", v, a);
    }
  }

  lemma CoveredMore(d: Definition, w: World, items: seq<BindingItem>, more: seq<BindingItem>)
    requires Covered(d, w, items) && items <= more
    ensures Covered(d, w, more)
  {
    hide IsLeaf, ItemAt, ApplyOf;
  }

  /** The loop of BindingItems for one definition. An applied definition is
      skipped or flattened; the branch for data that is not a map is never
      taken, so a retry always comes from an application that failed. The
      handler panics exactly on nil under a root key. */
  method CollectDefinition(c: Collector, d: Definition, w: World)
    returns (panics: bool, givenUp: bool, ghost trail: seq<Address>)
    requires c.flow.Valid()
    modifies c, c.flow
    ensures c.flow.Valid() && old(c.items) <= c.items
    ensures givenUp <==> ApplyOf(d, w).Failed?
    ensures givenUp ==> !panics && c.items == old(c.items) && c.flow.trace == old(c.flow.trace) + [RetryNow(true)]
    ensures NothingThere(d, w) ==> !panics && c.items == old(c.items) && c.flow.trace == old(c.flow.trace)
    ensures !givenUp && !NothingThere(d, w) ==>
      var v := ApplyOf(d, w).value;
      && v.Map? && Lists(trail, v) && c.items == old(c.items) + ItemsOf("", "", v, trail)
      && (panics <==> exists n :: n in v.entries && v.entries[n].Nil?)
      && (!HoldsNil(v) ==> !panics && Complete(trail, v))
    ensures !givenUp ==> MoreErrors(old(c.flow.trace), c.flow.trace)
    ensures Smooth(d, w) <==> !panics && c.flow.trace == old(c.flow.trace)
    ensures Smooth(d, w) ==> Covered(d, w, c.items)
  {
    hide Lists, Complete, ItemsOf, HoldsNil, ApplyOf, NothingThere, Covered;
    panics, givenUp, trail := false, false, [];
    MapOrNothing(d, w);
    NoMore(c.flow.trace);
    var applied := Apply(d, w);
    if applied.Failed? {
      c.flow.RetryProcessing(true);
      givenUp := true;
      return;
    }
    NothingHeld(d, w);
    if NonExistingOptional(d, applied.value) { return; }
    assert applied.value.Map?;
    ghost var before := c.items;
    panics, trail := c.CollectBinding(applied.value);
    RootNil(applied.value);
    if !HoldsNil(applied.value) { TrailCovers(d, w, trail, before); }
  }

  lemma RootNil(v: Value)
    requires v.Map?
    ensures (exists n :: n in v.entries && v.entries[n].Nil?) ==> HoldsNil(v)
  {
  }

  lemma NothingHeld(d: Definition, w: World)
    ensures !HoldsNil(Nil)
    ensures ApplyOf(d, w) == Yields(Nil) ==> forall items :: Covered(d, w, items)
  {
  }
}
