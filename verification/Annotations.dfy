/**
 Parsing of binding annotation values (`newModel`): a comma-separated list of
 options, or a plain value when no option is recognised.
 */
module Annotations {

  import opened Pods

  datatype Key = Path | Optional | ObjectType | ElementType | SourceKey | SourceValue

  function KeyText(k: Key): string
  {
    match k
    case Path => "path"
    case Optional => "optional"
    case ObjectType => "objectType"
    case ElementType => "elementType"
    case SourceKey => "sourceKey"
    case SourceValue => "sourceValue"
  }

  const KEYS := [Path, Optional, ObjectType, ElementType, SourceKey, SourceValue]

  datatype Model = Model(
    path: string, elementType: string, objectType: string, sourceKey: string, sourceValue: string,
    value: string, optional: bool)

  datatype Parsed = Parsed(model: Model) | PathNotFound | InvalidPath | IncompleteSlice

  // ---- Segments ----

  function Split(s: string): (r: seq<string>)
    ensures r != []
  {
    if s == "" then [""]
    else
      var rest := Split(s[1..]);
      if s[0] == ',' then [""] + rest else [[s[0]] + rest[0]] + rest[1..]
  }

  function Join(segments: seq<string>): string
    requires segments != []
  {
    if |segments| == 1 then segments[0] else segments[0] + "," + Join(segments[1..])
  }

  lemma {:induction false} SplitFirst(a: string, rest: string)
    requires ',' !in a
    ensures Split(a) == [a]
    ensures Split(a + "," + rest) == [a] + Split(rest)
  {
    if a == "" {
      assert a + "," + rest == "," + rest && ("," + rest)[1..] == rest;
    } else {
      SplitFirst(a[1..], rest);
      assert (a + "," + rest)[1..] == a[1..] + "," + rest;
      assert [a[0]] + a[1..] == a;
      assert ([a[1..]] + Split(rest))[1..] == Split(rest);
    }
  }

  /** Segments without commas survive joining and splitting. */
  lemma {:induction false} SplitJoin(segments: seq<string>)
    requires segments != [] && forall i :: 0 <= i < |segments| ==> ',' !in segments[i]
    ensures Split(Join(segments)) == segments
  {
    if |segments| == 1 {
      SplitFirst(segments[0], "");
      assert [segments[0]] == segments;
    } else {
      SplitFirst(segments[0], Join(segments[1..]));
      SplitJoin(segments[1..]);
      assert [segments[0]] + segments[1..] == segments;
    }
  }

  // ---- Prefixes ----

  function Prefix(k: Key): string
  {
    KeyText(k) + "="
  }

  lemma NoEquals(k: Key)
    ensures '=' !in KeyText(k)
  {
  }

  /** What stands before the first equals sign. */
  function Head(s: string): string
  {
    if s == "" || s[0] == '=' then "" else [s[0]] + Head(s[1..])
  }

  lemma {:induction false} HeadOf(a: string, s: string)
    requires '=' !in a && a + "=" <= s
    ensures Head(s) == a
  {
    if a == "" {
      assert s[0] == (a + "=")[0];
    } else {
      assert s[0] == (a + "=")[0] == a[0] && a[1..] + "=" == (a + "=")[1..];
      HeadOf(a[1..], s[1..]);
    }
  }

  lemma TextsDiffer(j: Key, k: Key)
    requires j != k
    ensures KeyText(j) != KeyText(k)
  {
    assert |KeyText(j)| != |KeyText(k)| || KeyText(j)[0] != KeyText(k)[0];
  }

  predicate Matches(s: string, k: Key)
  {
    Prefix(k) <= s
  }

  /** No two keys match the same segment. */
  lemma Unambiguous(s: string, j: Key, k: Key)
    requires Matches(s, j) && Matches(s, k)
    ensures j == k
  {
    NoEquals(j);
    NoEquals(k);
    HeadOf(KeyText(j), s);
    HeadOf(KeyText(k), s);
    if j != k { TextsDiffer(j, k); }
  }

  // ---- Options ----

  /** What a segment adds to the options read so far. */
  function Noted(raw: map<Key, string>, s: string, keys: seq<Key>): map<Key, string>
  {
    if keys == [] then raw
    else
      var k := keys[|keys| - 1];
      var before := Noted(raw, s, keys[..|keys| - 1]);
      if Matches(s, k) then before[k := s[|Prefix(k)|..]] else before
  }

  function Raw(segments: seq<string>): map<Key, string>
  {
    if segments == [] then map[] else Noted(Raw(segments[..|segments| - 1]), segments[|segments| - 1], KEYS)
  }

  /** A segment that starts with a key sets that key alone. */
  lemma {:induction false} NotedKey(raw: map<Key, string>, s: string, keys: seq<Key>, k: Key)
    requires Matches(s, k)
    ensures Noted(raw, s, keys) == if k in keys then raw[k := s[|Prefix(k)|..]] else raw
  {
    hide Prefix;
    if keys != [] {
      var n := |keys| - 1;
      NotedKey(raw, s, keys[..n], k);
      if Matches(s, keys[n]) { Unambiguous(s, keys[n], k); }
      assert k in keys <==> k in keys[..n] || k == keys[n];
    }
  }

  lemma {:induction false} NotedNothing(raw: map<Key, string>, s: string, keys: seq<Key>)
    requires forall k :: !Matches(s, k)
    ensures Noted(raw, s, keys) == raw
  {
    if keys != [] { NotedNothing(raw, s, keys[..|keys| - 1]); }
  }

  function Given(raw: map<Key, string>, k: Key): Option<string>
  {
    if k in raw then Some(raw[k]) else None
  }

  function CountChar(s: string, c: char): nat
  {
    if s == "" then 0 else (if s[0] == c then 1 else 0) + CountChar(s[1..], c)
  }

  predicate Balanced(path: string)
  {
    CountChar(path, '{') != 0 && CountChar(path, '{') == CountChar(path, '}')
  }

  // ---- The model ----

  const STRING := "string"
  const SECRET := "Secret"
  const CONFIG_MAP := "ConfigMap"
  const MAP := "map"
  const SLICE_OF_MAPS := "sliceOfMaps"
  const SLICE_OF_STRINGS := "sliceOfStrings"

  function OrElse(o: Option<string>, default: string): string
  {
    if o.Some? then o.value else default
  }

  function ObjectTypeOf(o: Option<string>): string
  {
    if o.None? || o.value == "" then STRING else o.value
  }

  /** The model that options describe, with the defaults: objects and elements
      are strings, the elements of secrets and config maps are maps, nothing is
      optional, and the source value is the source key. */
  function Described(path: string, optional: Option<string>, objectType: Option<string>, elementType: Option<string>,
                     sourceKey: Option<string>, sourceValue: Option<string>): Parsed
  {
    var kind := ObjectTypeOf(objectType);
    var element := OrElse(elementType, if kind == SECRET || kind == CONFIG_MAP then MAP else STRING);
    var key := OrElse(sourceKey, "");
    var value := OrElse(sourceValue, key);
    if !Balanced(path) then InvalidPath
    else if element == SLICE_OF_MAPS && (key == "" || value == "") then IncompleteSlice
    else Parsed(Model(path, element, kind, key, value, "", optional == Some("true")))
  }

  function Interpreted(raw: map<Key, string>, text: string): Parsed
  {
    if raw == map[] then Parsed(Model("", "", "", "", "", text, false))
    else if Path !in raw then PathNotFound
    else Described(raw[Path], Given(raw, Optional), Given(raw, ObjectType), Given(raw, ElementType),
                   Given(raw, SourceKey), Given(raw, SourceValue))
  }

  method StringCount(s: string, c: char) returns (n: nat)
    ensures n == CountChar(s, c)
  {
    n := 0;
    var i := |s|;
    while i > 0
      invariant 0 <= i <= |s| && n == CountChar(s[i..], c)
    {
      i := i - 1;
      assert s[i..][1..] == s[i + 1..];
      if s[i] == c { n := n + 1; }
    }
    assert s[0..] == s;
  }

  /** The options of an annotation value: a segment that starts with a key sets it. */
  method ReadOptions(text: string) returns (raw: map<Key, string>)
    ensures raw == Raw(Split(text))
  {
    hide Split, Matches;
    raw := map[];
    var segments := Split(text);
    var i := 0;
    while i < |segments|
      invariant 0 <= i <= |segments| && raw == Raw(segments[..i])
    {
      assert segments[..i + 1][..i] == segments[..i];
      var j := 0;
      while j < |KEYS|
        invariant 0 <= j <= |KEYS| && raw == Noted(Raw(segments[..i]), segments[i], KEYS[..j])
      {
        assert KEYS[..j + 1][..j] == KEYS[..j];
        if Matches(segments[i], KEYS[j]) {
          MatchLength(segments[i], KEYS[j]);
          raw := raw[KEYS[j] := segments[i][|Prefix(KEYS[j])|..]];
        }
        j := j + 1;
      }
      assert KEYS[..j] == KEYS;
      i := i + 1;
    }
    assert segments[..i] == segments;
  }

  lemma MatchLength(s: string, k: Key)
    requires Matches(s, k)
    ensures |Prefix(k)| <= |s|
  {
  }

  /** newModel. */
  method NewModel(text: string) returns (r: Parsed)
    ensures r == Interpreted(Raw(Split(text)), text)
  {
    hide Raw, Split, CountChar;
    var raw := ReadOptions(text);
    if Path !in raw {
      if raw == map[] { return Parsed(Model("", "", "", "", "", text, false)); }
      return PathNotFound;
    }
    var path := raw[Path];
    var openings := StringCount(path, '{');
    var closings := StringCount(path, '}');
    if openings == 0 || openings != closings { return InvalidPath; }
    var objectType := STRING;
    if ObjectType in raw && raw[ObjectType] != "" { objectType := raw[ObjectType]; }
    var optional := Optional in raw && raw[Optional] == "true";
    var sourceKey := if SourceKey in raw then raw[SourceKey] else "";
    var sourceValue := if SourceValue in raw then raw[SourceValue] else if SourceKey in raw then raw[SourceKey] else "";
    var hasData := objectType == SECRET || objectType == CONFIG_MAP;
    var elementType := if ElementType in raw then raw[ElementType] else if hasData then MAP else STRING;
    if elementType == SLICE_OF_MAPS && (|sourceValue| == 0 || |sourceKey| == 0) { return IncompleteSlice; }
    return Parsed(Model(path, elementType, objectType, sourceKey, sourceValue, "", optional));
  }

  // ---- Round trip ----

  datatype Setting = Setting(key: Key, text: string)

  function Printed(settings: seq<Setting>): seq<string>
  {
    seq(|settings|, i requires 0 <= i < |settings| => Prefix(settings[i].key) + settings[i].text)
  }

  /** The last setting of a key. */
  function Last(settings: seq<Setting>, k: Key): Option<string>
  {
    if settings == [] then None
    else if settings[|settings| - 1].key == k then Some(settings[|settings| - 1].text)
    else Last(settings[..|settings| - 1], k)
  }

  lemma KeyListed(k: Key)
    ensures k in KEYS
  {
    assert KEYS[0] == Path && KEYS[1] == Optional && KEYS[2] == ObjectType;
    assert KEYS[3] == ElementType && KEYS[4] == SourceKey && KEYS[5] == SourceValue;
  }

  lemma {:induction false} RawPrinted(settings: seq<Setting>, k: Key)
    ensures Given(Raw(Printed(settings)), k) == Last(settings, k)
    ensures settings != [] ==> Raw(Printed(settings)) != map[]
  {
    hide Prefix, Noted;
    if settings != [] {
      var n := |settings| - 1;
      var s := settings[n];
      RawPrinted(settings[..n], k);
      assert Printed(settings)[..n] == Printed(settings[..n]);
      var segment := Prefix(s.key) + s.text;
      assert Matches(segment, s.key) && segment[|Prefix(s.key)|..] == s.text;
      NotedKey(Raw(Printed(settings[..n])), segment, KEYS, s.key);
      KeyListed(s.key);
      assert s.key in Raw(Printed(settings));
    }
  }

  lemma PrintedSplits(settings: seq<Setting>)
    requires settings != [] && forall i :: 0 <= i < |settings| ==> ',' !in settings[i].text
    ensures Split(Join(Printed(settings))) == Printed(settings)
  {
    hide Split, Join, Prefix;
    var segments := Printed(settings);
    forall i | 0 <= i < |segments| ensures ',' !in segments[i] { NoCommas(settings[i].key); }
    SplitJoin(segments);
  }

  /** Printing settings in any order, with any repetitions, and parsing them
      gives the model of the last setting of each key, with the defaults. */
  lemma {:induction false} RoundTrip(settings: seq<Setting>)
    requires settings != [] && forall i :: 0 <= i < |settings| ==> ',' !in settings[i].text
    ensures var text := Join(Printed(settings));
      Interpreted(Raw(Split(text)), text) == (
        if Last(settings, Path).None? then PathNotFound
        else Described(Last(settings, Path).value, Last(settings, Optional), Last(settings, ObjectType),
                       Last(settings, ElementType), Last(settings, SourceKey), Last(settings, SourceValue)))
  {
    hide Raw, Split, Join, Last, Described;
    PrintedSplits(settings);
    RawPrinted(settings, Path);
    RawPrinted(settings, Optional);
    RawPrinted(settings, ObjectType);
    RawPrinted(settings, ElementType);
    RawPrinted(settings, SourceKey);
    RawPrinted(settings, SourceValue);
  }

  lemma NoCommas(k: Key)
    ensures ',' !in Prefix(k)
  {
  }

  /** A value in which no segment starts with a key is taken as it is. */
  lemma {:induction false} PlainValue(segments: seq<string>)
    requires forall i, k :: 0 <= i < |segments| ==> !Matches(segments[i], k)
    ensures Raw(segments) == map[]
  {
    if segments != [] {
      var n := |segments| - 1;
      PlainValue(segments[..n]);
      NotedNothing(Raw(segments[..n]), segments[n], KEYS);
    }
  }
}
