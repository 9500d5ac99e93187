/**
 * The GM handbook generator's text handling: looking a name up in the language's text map with
 * the fallback language behind it, giving items and avatars their display names, loading a text
 * map in either of its two file formats, and the maze-buff listing's order.
 */
module Handbook {
  import opened Common
  import opened Text

  /** A text map: text hash to text. */
  type TextMap = map<int, string>

  /** The text shown for a hash that neither map has: the hash in square brackets. */
  function Placeholder(key: int): (r: string)
    ensures |r| >= 3 && r[0] == '[' && r[|r| - 1] == ']'
  {
    "[" + IntToString(key) + "]"
  }

  /** Different hashes have different placeholders. */
  lemma PlaceholderInjective(a: int, b: int)
    requires Placeholder(a) == Placeholder(b)
    ensures a == b
  {
    var pa := Placeholder(a);
    assert pa[1..|pa| - 1] == IntToString(a);
    assert pa[1..|pa| - 1] == IntToString(b);
    IntToStringInjective(a, b);
  }

  /** GetNameFromTextMap: the language's text, else the fallback language's, else the placeholder. */
  function GetNameFromTextMap(key: int, primary: TextMap, fallback: TextMap): (r: string)
    ensures key in primary ==> r == primary[key]
    ensures key !in primary && key in fallback ==> r == fallback[key]
    ensures key !in primary && key !in fallback ==> r == Placeholder(key)
  {
    if key in primary then primary[key]
    else if key in fallback then fallback[key]
    else Placeholder(key)
  }

  /** The lookup is the same as looking the key up in the fallback map overlaid with the primary one. */
  lemma LookupIsOverlay(key: int, primary: TextMap, fallback: TextMap)
    ensures key in fallback + primary ==> GetNameFromTextMap(key, primary, fallback) == (fallback + primary)[key]
    ensures key !in fallback + primary ==> GetNameFromTextMap(key, primary, fallback) == Placeholder(key)
  {
  }

  /**
   * The display name an item or avatar ends up with: when names are being set, it takes the looked-up
   * text unless that text is the placeholder; otherwise it keeps the name it had.
   */
  function NameAfter(current: Option<string>, hash: int, primary: TextMap, fallback: TextMap, setName: bool): (r: Option<string>)
    ensures r != current ==>
      && setName && (hash in primary || hash in fallback)
      && r == Some(GetNameFromTextMap(hash, primary, fallback))
      && r != Some(Placeholder(hash))
    ensures setName && (hash in primary || hash in fallback) && GetNameFromTextMap(hash, primary, fallback) != Placeholder(hash) ==>
      r == Some(GetNameFromTextMap(hash, primary, fallback))
  {
    var name := GetNameFromTextMap(hash, primary, fallback);
    if setName && name != Placeholder(hash) then Some(name) else current
  }

  /** Naming twice is naming once. */
  lemma NameAfterIdempotent(current: Option<string>, hash: int, primary: TextMap, fallback: TextMap, setName: bool)
    ensures var once := NameAfter(current, hash, primary, fallback, setName);
            NameAfter(once, hash, primary, fallback, setName) == once
  {
  }

  /** The handbook line for an id and its name. */
  function NameLine(id: int, name: string): string {
    IntToString(id) + ": " + name
  }

  /** An item or avatar config as the generator sees it: its id, its name's text hash, and its display name. */
  datatype NamedConfig = NamedConfig(id: int, nameHash: int, name: Option<string>)

  /** The handbook line for a config: its id and its looked-up name. */
  function LineFor(c: NamedConfig, primary: TextMap, fallback: TextMap): string {
    NameLine(c.id, GetNameFromTextMap(c.nameHash, primary, fallback))
  }

  /** A config after the generator has been over it. */
  function Renamed(c: NamedConfig, primary: TextMap, fallback: TextMap, setName: bool): NamedConfig {
    c.(name := NameAfter(c.name, c.nameHash, primary, fallback, setName))
  }

  /** The lines for configs in order. */
  function LinesOf(items: seq<NamedConfig>, primary: TextMap, fallback: TextMap): (r: seq<string>)
    ensures |r| == |items|
  {
    if items == [] then []
    else LinesOf(items[..|items| - 1], primary, fallback) + [LineFor(items[|items| - 1], primary, fallback)]
  }

  /** The i-th line is the i-th config's. */
  lemma {:induction false} LinesOfAt(items: seq<NamedConfig>, primary: TextMap, fallback: TextMap, i: int)
    requires 0 <= i < |items|
    ensures LinesOf(items, primary, fallback)[i] == LineFor(items[i], primary, fallback)
  {
    if i < |items| - 1 {
      LinesOfAt(items[..|items| - 1], primary, fallback, i);
    }
  }

  /** The configs in order after the generator has been over them. */
  function RenamedAll(items: seq<NamedConfig>, primary: TextMap, fallback: TextMap, setName: bool): (r: seq<NamedConfig>)
    ensures |r| == |items|
  {
    if items == [] then []
    else RenamedAll(items[..|items| - 1], primary, fallback, setName) + [Renamed(items[|items| - 1], primary, fallback, setName)]
  }

  /** The i-th renamed config is the i-th config renamed. */
  lemma {:induction false} RenamedAllAt(items: seq<NamedConfig>, primary: TextMap, fallback: TextMap, setName: bool, i: int)
    requires 0 <= i < |items|
    ensures RenamedAll(items, primary, fallback, setName)[i] == Renamed(items[i], primary, fallback, setName)
  {
    if i < |items| - 1 {
      RenamedAllAt(items[..|items| - 1], primary, fallback, setName, i);
    }
  }

  /** One more config adds its line and its renamed self at the end. */
  lemma GenerateSnoc(items: seq<NamedConfig>, primary: TextMap, fallback: TextMap, setName: bool, i: int)
    requires 0 <= i < |items|
    ensures LinesOf(items[..i + 1], primary, fallback) == LinesOf(items[..i], primary, fallback) + [LineFor(items[i], primary, fallback)]
    ensures RenamedAll(items[..i + 1], primary, fallback, setName) == RenamedAll(items[..i], primary, fallback, setName) + [Renamed(items[i], primary, fallback, setName)]
  {
    assert items[..i + 1][..i] == items[..i];
  }

  /**
   * GenerateItem and GenerateAvatar (and, with `setName` false, the mission and stage listings):
   * one line per config with its looked-up name, and each config renamed as NameAfter says.
   */
  method GenerateNamed(items: seq<NamedConfig>, primary: TextMap, fallback: TextMap, setName: bool)
    returns (lines: seq<string>, renamed: seq<NamedConfig>)
    ensures lines == LinesOf(items, primary, fallback)
    ensures renamed == RenamedAll(items, primary, fallback, setName)
  {
    lines := [];
    renamed := [];
    var i := 0;
    while i < |items|
      invariant 0 <= i <= |items|
      invariant lines == LinesOf(items[..i], primary, fallback)
      invariant renamed == RenamedAll(items[..i], primary, fallback, setName)
    {
      var item := items[i];
      GenerateSnoc(items, primary, fallback, setName, i);
      lines := lines + [LineFor(item, primary, fallback)];
      renamed := renamed + [Renamed(item, primary, fallback, setName)];
      i := i + 1;
    }
    assert items[..i] == items;
  }

  // ---------------------------------------------------------------- loading a text map

  /** A JSON value as the array-format reader meets it. */
  datatype JsonValue =
    | JInt(n: int)
    | JString(s: string)
    | JObject(fields: seq<(string, JsonValue)>)
    | JArray(items: seq<JsonValue>)
    | JOther

  /** What the reader has gathered from one array element. */
  datatype Entry = Entry(hash: Option<int>, hash64: Option<int>, text: Option<string>)

  /** One property of the "ID" object: an integer "Hash" or "Hash64" is taken, anything else passed over. */
  function ApplyIdField(e: Entry, field: (string, JsonValue)): (r: Entry)
    ensures r.text == e.text
  {
    if !field.1.JInt? then e
    else if field.0 == "Hash" then e.(hash := Some(field.1.n))
    else if field.0 == "Hash64" then e.(hash64 := Some(field.1.n))
    else e
  }

  /** The properties of the "ID" object in order. */
  function ApplyIdFields(e: Entry, fields: seq<(string, JsonValue)>): (r: Entry)
    ensures r.text == e.text
  {
    if fields == [] then e else ApplyIdField(ApplyIdFields(e, fields[..|fields| - 1]), fields[|fields| - 1])
  }

  /** One property of an element: "ID" holding an object, "Text" holding a string; everything else is skipped. */
  function ApplyProperty(e: Entry, prop: (string, JsonValue)): Entry {
    if prop.0 == "ID" && prop.1.JObject? then ApplyIdFields(e, prop.1.fields)
    else if prop.0 == "Text" && prop.1.JString? then e.(text := Some(prop.1.s))
    else e
  }

  /** The properties of an element in order. */
  function ReadEntryFrom(e: Entry, props: seq<(string, JsonValue)>): Entry {
    if props == [] then e else ApplyProperty(ReadEntryFrom(e, props[..|props| - 1]), props[|props| - 1])
  }

  /** The entry read from an element's properties, starting with nothing. */
  function ReadEntry(props: seq<(string, JsonValue)>): Entry {
    ReadEntryFrom(Entry(None, None, None), props)
  }

  /** The last string-valued "Text" property is the element's text; without one there is none. */
  lemma {:induction false} ReadEntryText(props: seq<(string, JsonValue)>)
    ensures ReadEntry(props).text.Some? <==> exists i :: 0 <= i < |props| && IsTextProperty(props[i])
    ensures forall i :: 0 <= i < |props| && IsTextProperty(props[i]) &&
                        (forall j :: i < j < |props| ==> !IsTextProperty(props[j])) ==>
                        ReadEntry(props).text == Some(props[i].1.s)
  {
    if props != [] {
      var init := props[..|props| - 1];
      ReadEntryText(init);
      assert forall i :: 0 <= i < |init| ==> init[i] == props[i];
    }
  }

  predicate IsTextProperty(prop: (string, JsonValue)) {
    prop.0 == "Text" && prop.1.JString?
  }

  /** The (key, text) pairs an entry contributes, in the order they are tried: none without text, Hash64 before Hash. */
  function EntryPairs(e: Entry): (r: seq<(int, string)>)
    ensures |r| <= 2
    ensures forall i :: 0 <= i < |r| ==> e.text == Some(r[i].1) && r[i].1 != ""
  {
    if e.text.None? || e.text.value == "" then []
    else
      (if e.hash64.Some? then [(e.hash64.value, e.text.value)] else [])
      + (if e.hash.Some? then [(e.hash.value, e.text.value)] else [])
  }

  /** One element of the array: an object is read and its text stored under each of its hashes not already present. */
  function InsertElement(m: TextMap, element: JsonValue): (r: TextMap)
    ensures forall k :: k in m ==> k in r && r[k] == m[k]
  {
    if !element.JObject? then m
    else
      var e := ReadEntry(element.fields);
      if e.text.None? || e.text.value == "" then m
      else
        var m1 := if e.hash64.Some? && e.hash64.value !in m then m[e.hash64.value := e.text.value] else m;
        if e.hash.Some? && e.hash.value !in m1 then m1[e.hash.value := e.text.value] else m1
  }

  /** The array-format loader's dictionary: the elements in order, starting empty. */
  function ArrayTextMap(elements: seq<JsonValue>): TextMap {
    if elements == [] then map[] else InsertElement(ArrayTextMap(elements[..|elements| - 1]), elements[|elements| - 1])
  }

  /**
   * The elements the array reader takes as entries, in order. It walks one token at a time, so
   * an element that is itself an array is stepped into: its members are read as entries, and
   * its closing bracket ends the whole walk, the rest of the outer array being left unread.
   */
  function Walked(elements: seq<JsonValue>): (r: seq<JsonValue>)
    ensures forall i :: 0 <= i < |r| ==> !r[i].JArray?
    decreases elements
  {
    if elements == [] then []
    else if elements[0].JArray? then Walked(elements[0].items)
    else [elements[0]] + Walked(elements[1..])
  }

  /** The dictionary the array reader builds from an array's elements. */
  function LoadedTextMap(elements: seq<JsonValue>): TextMap {
    ArrayTextMap(Walked(elements))
  }

  /** An array without nested arrays is walked element by element to its end. */
  lemma {:induction false} WalkedFlat(elements: seq<JsonValue>)
    requires forall i :: 0 <= i < |elements| ==> !elements[i].JArray?
    ensures Walked(elements) == elements
  {
    if elements != [] {
      WalkedFlat(elements[1..]);
    }
  }

  /**
   * A nested array ends the walk: what comes before it is read, then its own members, and
   * nothing after it.
   */
  lemma {:induction false} NestedArrayEndsWalk(before: seq<JsonValue>, inner: seq<JsonValue>, after: seq<JsonValue>)
    requires forall i :: 0 <= i < |before| ==> !before[i].JArray?
    ensures Walked(before + [JArray(inner)] + after) == before + Walked(inner)
  {
    if before == [] {
      assert (before + [JArray(inner)] + after)[0] == JArray(inner);
    } else {
      assert (before + [JArray(inner)] + after)[1..] == before[1..] + [JArray(inner)] + after;
      NestedArrayEndsWalk(before[1..], inner, after);
    }
  }

  /** All the pairs the elements contribute, in order. */
  function ArrayPairs(elements: seq<JsonValue>): seq<(int, string)> {
    if elements == [] then []
    else
      var last := elements[|elements| - 1];
      ArrayPairs(elements[..|elements| - 1]) + (if last.JObject? then EntryPairs(ReadEntry(last.fields)) else [])
  }

  /** Adding a pair unless its key is already present. */
  function AddFirst(m: TextMap, p: (int, string)): TextMap {
    if p.0 in m then m else m[p.0 := p.1]
  }

  /** The reference rule: pairs added in order, the first text for a key winning. */
  function FirstWinsFrom(m: TextMap, ps: seq<(int, string)>): TextMap {
    if ps == [] then m else AddFirst(FirstWinsFrom(m, ps[..|ps| - 1]), ps[|ps| - 1])
  }

  lemma {:induction false} FirstWinsAppend(m: TextMap, a: seq<(int, string)>, b: seq<(int, string)>)
    ensures FirstWinsFrom(m, a + b) == FirstWinsFrom(FirstWinsFrom(m, a), b)
  {
    if b == [] {
      assert a + b == a;
    } else {
      assert (a + b)[..|a + b| - 1] == a + b[..|b| - 1];
      FirstWinsAppend(m, a, b[..|b| - 1]);
    }
  }

  /** Inserting an element adds its pairs first-wins. */
  lemma InsertElementPairs(m: TextMap, element: JsonValue)
    requires element.JObject?
    ensures InsertElement(m, element) == FirstWinsFrom(m, EntryPairs(ReadEntry(element.fields)))
  {
    var ps := EntryPairs(ReadEntry(element.fields));
    if |ps| == 2 {
      assert ps[..1][..0] == [];
      assert FirstWinsFrom(m, ps[..1]) == AddFirst(m, ps[0]);
      assert FirstWinsFrom(m, ps) == AddFirst(AddFirst(m, ps[0]), ps[1]);
    } else if |ps| == 1 {
      assert ps[..0] == [];
      assert FirstWinsFrom(m, ps) == AddFirst(m, ps[0]);
    }
  }

  /** The loader's dictionary is the first-wins map of all the pairs. */
  lemma {:induction false} ArrayTextMapIsFirstWins(elements: seq<JsonValue>)
    ensures ArrayTextMap(elements) == FirstWinsFrom(map[], ArrayPairs(elements))
  {
    if elements != [] {
      var init := elements[..|elements| - 1];
      var last := elements[|elements| - 1];
      ArrayTextMapIsFirstWins(init);
      var tail := if last.JObject? then EntryPairs(ReadEntry(last.fields)) else [];
      FirstWinsAppend(map[], ArrayPairs(init), tail);
      if last.JObject? {
        InsertElementPairs(ArrayTextMap(init), last);
      }
    }
  }

  predicate HasKey(ps: seq<(int, string)>, i: int, k: int)
    requires 0 <= i < |ps|
  {
    ps[i].0 == k
  }

  /** The first-wins map holds exactly the keys of the pairs, added to those it started with. */
  lemma {:induction false} FirstWinsKeys(m: TextMap, ps: seq<(int, string)>, k: int)
    ensures k in FirstWinsFrom(m, ps) <==> k in m || exists i :: 0 <= i < |ps| && HasKey(ps, i, k)
  {
    if ps != [] {
      var init := ps[..|ps| - 1];
      FirstWinsKeys(m, init, k);
      assert forall i :: 0 <= i < |init| ==> HasKey(init, i, k) == HasKey(ps, i, k);
      assert (exists i :: 0 <= i < |ps| && HasKey(ps, i, k)) <==>
             (exists i :: 0 <= i < |init| && HasKey(init, i, k)) || HasKey(ps, |ps| - 1, k);
    }
  }

  /** A key's text is the text of its first pair, unless the map already had it. */
  lemma {:induction false} FirstWinsFirst(m: TextMap, ps: seq<(int, string)>, i: int)
    requires 0 <= i < |ps| && ps[i].0 !in m
    requires forall j :: 0 <= j < i ==> !HasKey(ps, j, ps[i].0)
    ensures ps[i].0 in FirstWinsFrom(m, ps) && FirstWinsFrom(m, ps)[ps[i].0] == ps[i].1
  {
    var init := ps[..|ps| - 1];
    var k := ps[i].0;
    if i < |init| {
      assert init[i] == ps[i];
      assert forall j :: 0 <= j < i ==> HasKey(init, j, k) == HasKey(ps, j, k);
      FirstWinsFirst(m, init, i);
    } else {
      FirstWinsKeys(m, init, k);
      if k in FirstWinsFrom(m, init) {
        var j :| 0 <= j < |init| && HasKey(init, j, k);
        assert HasKey(ps, j, k);
      }
    }
  }

  /** A key the map started with keeps its text. */
  lemma {:induction false} FirstWinsKeeps(m: TextMap, ps: seq<(int, string)>, k: int)
    requires k in m
    ensures k in FirstWinsFrom(m, ps) && FirstWinsFrom(m, ps)[k] == m[k]
  {
    if ps != [] {
      FirstWinsKeeps(m, ps[..|ps| - 1], k);
    }
  }

  /** Every text in the loaded dictionary is non-empty. */
  lemma {:induction false} ArrayTextMapNonEmpty(elements: seq<JsonValue>)
    ensures forall k :: k in ArrayTextMap(elements) ==> ArrayTextMap(elements)[k] != ""
  {
    if elements != [] {
      ArrayTextMapNonEmpty(elements[..|elements| - 1]);
    }
  }

  /**
   * The first text for a hash wins: a hash's text in the loaded dictionary is the text of the
   * first pair (Hash64 tried before Hash within an element, elements in order) naming it.
   */
  lemma ArrayTextMapFirstWins(elements: seq<JsonValue>, i: int)
    requires 0 <= i < |ArrayPairs(elements)|
    requires forall j :: 0 <= j < i ==> !HasKey(ArrayPairs(elements), j, ArrayPairs(elements)[i].0)
    ensures ArrayPairs(elements)[i].0 in ArrayTextMap(elements)
    ensures ArrayTextMap(elements)[ArrayPairs(elements)[i].0] == ArrayPairs(elements)[i].1
  {
    ArrayTextMapIsFirstWins(elements);
    FirstWinsFirst(map[], ArrayPairs(elements), i);
  }

  /** The dictionary's keys are exactly the hashes some pair names. */
  lemma ArrayTextMapKeys(elements: seq<JsonValue>, k: int)
    ensures k in ArrayTextMap(elements) <==> exists i :: 0 <= i < |ArrayPairs(elements)| && HasKey(ArrayPairs(elements), i, k)
  {
    ArrayTextMapIsFirstWins(elements);
    FirstWinsKeys(map[], ArrayPairs(elements), k);
  }

  /** The reader loop over one element's properties. */
  method ReadElement(props: seq<(string, JsonValue)>) returns (e: Entry)
    ensures e == ReadEntry(props)
  {
    e := Entry(None, None, None);
    var i := 0;
    while i < |props|
      invariant 0 <= i <= |props|
      invariant e == ReadEntryFrom(Entry(None, None, None), props[..i])
    {
      var (name, value) := props[i];
      if name == "ID" && value.JObject? {
        var fields := value.fields;
        ghost var start := e;
        var j := 0;
        while j < |fields|
          invariant 0 <= j <= |fields|
          invariant e == ApplyIdFields(start, fields[..j])
        {
          var (idName, idValue) := fields[j];
          if idValue.JInt? {
            if idName == "Hash" {
              e := e.(hash := Some(idValue.n));
            } else if idName == "Hash64" {
              e := e.(hash64 := Some(idValue.n));
            }
          }
          assert fields[..j + 1][..j] == fields[..j];
          j := j + 1;
        }
        assert fields[..j] == fields;
      } else if name == "Text" && value.JString? {
        e := e.(text := Some(value.s));
      }
      assert props[..i + 1][..i] == props[..i];
      i := i + 1;
    }
    assert props[..i] == props;
  }

  /**
   * The array-format loader: scalars are skipped, each object's text is stored first-wins, and
   * a nested array is stepped into, its end closing the walk.
   */
  method LoadArray(elements: seq<JsonValue>) returns (dict: TextMap)
    ensures dict == LoadedTextMap(elements)
  {
    dict := map[];
    ghost var done: seq<JsonValue> := [];
    var rest := elements;
    while rest != []
      invariant done + Walked(rest) == Walked(elements)
      invariant dict == ArrayTextMap(done)
      decreases rest
    {
      var element := rest[0];
      if element.JArray? {
        rest := element.items;
        continue;
      }
      assert (done + [element])[..|done|] == done;
      if element.JObject? {
        var e := ReadElement(element.fields);
        if e.text.Some? && e.text.value != "" {
          if e.hash64.Some? && e.hash64.value !in dict {
            dict := dict[e.hash64.value := e.text.value];
          }
          if e.hash.Some? && e.hash.value !in dict {
            dict := dict[e.hash.value := e.text.value];
          }
        }
      }
      done := done + [element];
      rest := rest[1..];
    }
    assert done + Walked(rest) == done;
  }

  /** How the text map file reads after any leading comments. */
  datatype Layout =
    | ObjectLayout(parsed: Option<TextMap>)   // an object, deserialized as a whole
    | ArrayLayout(elements: seq<JsonValue>)    // an array of entries, read without a syntax error
    | MalformedLayout                          // an array the reader rejects partway: the catch gives null
    | OtherLayout                              // anything else

  /**
   * LoadTextMapDictionary: the legacy whole-file dictionary when it parses to a non-empty map;
   * otherwise the streamed object or array; nothing for any other layout. `legacy` is None when
   * the legacy parse fails.
   */
  function LoadTextMapDictionary(legacy: Option<TextMap>, layout: Layout): (r: Option<TextMap>)
    ensures legacy.Some? && |legacy.value| > 0 ==> r == legacy
    ensures !(legacy.Some? && |legacy.value| > 0) ==>
      r == match layout
           case ObjectLayout(parsed) => parsed
           case ArrayLayout(elements) => Some(LoadedTextMap(elements))
           case MalformedLayout => None
           case OtherLayout => None
  {
    if legacy.Some? && |legacy.value| > 0 then legacy
    else match layout
      case ObjectLayout(parsed) => parsed
      case ArrayLayout(elements) => Some(LoadedTextMap(elements))
      case MalformedLayout => None
      case OtherLayout => None
  }

  /** An empty legacy dictionary is never used: the result is then whatever the stream gives. */
  lemma EmptyLegacyIgnored(layout: Layout)
    ensures LoadTextMapDictionary(Some(map[]), layout) == LoadTextMapDictionary(None, layout)
  {
  }

  // ---------------------------------------------------------------- maze buffs

  /** A maze buff as listed: its id, level and modifier name. */
  datatype MazeBuff = MazeBuff(id: int, lv: int, modifierName: string)

  /** The listing order: by id, then by level. */
  predicate Before(a: MazeBuff, b: MazeBuff) {
    a.id < b.id || (a.id == b.id && a.lv <= b.lv)
  }

  predicate SortedBuffs(s: seq<MazeBuff>) {
    forall i, j :: 0 <= i < j < |s| ==> Before(s[i], s[j])
  }

  /** A buff inserted before the first buff that comes strictly after it, so equal keys keep their arrival order. */
  function InsertBuff(sorted: seq<MazeBuff>, b: MazeBuff): (r: seq<MazeBuff>)
    ensures |r| == |sorted| + 1
  {
    if sorted == [] then [b]
    else if !Before(sorted[0], b) then [b] + sorted
    else [sorted[0]] + InsertBuff(sorted[1..], b)
  }

  lemma {:induction false} InsertBuffCount(sorted: seq<MazeBuff>, b: MazeBuff)
    ensures multiset(InsertBuff(sorted, b)) == multiset(sorted) + multiset{b}
  {
    if sorted != [] && Before(sorted[0], b) {
      InsertBuffCount(sorted[1..], b);
      assert sorted == [sorted[0]] + sorted[1..];
    }
  }

  /** A buff that comes before every buff of a sorted listing can head it. */
  lemma SortedCons(x: MazeBuff, rest: seq<MazeBuff>)
    requires SortedBuffs(rest)
    requires forall j :: 0 <= j < |rest| ==> Before(x, rest[j])
    ensures SortedBuffs([x] + rest)
  {
    var r := [x] + rest;
    forall i, j | 0 <= i < j < |r|
      ensures Before(r[i], r[j])
    {
      if i == 0 {
        assert r[j] == rest[j - 1];
      } else {
        assert r[i] == rest[i - 1] && r[j] == rest[j - 1];
      }
    }
  }

  lemma {:induction false} InsertBuffSorted(sorted: seq<MazeBuff>, b: MazeBuff)
    requires SortedBuffs(sorted)
    ensures SortedBuffs(InsertBuff(sorted, b))
  {
    if sorted == [] {
    } else if !Before(sorted[0], b) {
      assert forall j :: 0 <= j < |sorted| ==> Before(sorted[0], sorted[j]) || j == 0;
      SortedCons(b, sorted);
    } else {
      var tail := sorted[1..];
      assert SortedBuffs(tail) by {
        assert forall i :: 0 <= i < |tail| ==> tail[i] == sorted[i + 1];
      }
      InsertBuffSorted(tail, b);
      InsertBuffCount(tail, b);
      var rest := InsertBuff(tail, b);
      forall j | 0 <= j < |rest|
        ensures Before(sorted[0], rest[j])
      {
        var x := rest[j];
        assert x in multiset(rest);
        if x != b {
          assert x in multiset(tail);
          var k :| 0 <= k < |tail| && tail[k] == x;
          assert sorted[k + 1] == x;
        }
      }
      SortedCons(sorted[0], rest);
    }
  }

  /** OrderBy(ID).ThenBy(Lv): the buffs sorted, as an insertion sort in arrival order. */
  function SortBuffs(s: seq<MazeBuff>): (r: seq<MazeBuff>)
    ensures |r| == |s|
  {
    if s == [] then [] else InsertBuff(SortBuffs(s[..|s| - 1]), s[|s| - 1])
  }

  /** The listing is in order and lists every buff exactly as often as it occurs. */
  lemma {:induction false} SortBuffsCorrect(s: seq<MazeBuff>)
    ensures SortedBuffs(SortBuffs(s))
    ensures multiset(SortBuffs(s)) == multiset(s)
  {
    if s != [] {
      var init := s[..|s| - 1];
      SortBuffsCorrect(init);
      InsertBuffSorted(SortBuffs(init), s[|s| - 1]);
      InsertBuffCount(SortBuffs(init), s[|s| - 1]);
      assert s == init + [s[|s| - 1]];
    }
  }

  /** The handbook line for a buff. */
  function BuffLine(b: MazeBuff): string {
    IntToString(b.id) + ": " + b.modifierName + " --- Level:" + IntToString(b.lv)
  }

  /** The lines for buffs in the given order. */
  function BuffLines(s: seq<MazeBuff>): (r: seq<string>)
    ensures |r| == |s|
  {
    if s == [] then [] else BuffLines(s[..|s| - 1]) + [BuffLine(s[|s| - 1])]
  }

  /** The i-th line is the i-th buff's. */
  lemma {:induction false} BuffLinesAt(s: seq<MazeBuff>, i: int)
    requires 0 <= i < |s|
    ensures BuffLines(s)[i] == BuffLine(s[i])
  {
    if i < |s| - 1 {
      BuffLinesAt(s[..|s| - 1], i);
    }
  }

  lemma BuffLinesSnoc(s: seq<MazeBuff>, i: int)
    requires 0 <= i < |s|
    ensures BuffLines(s[..i + 1]) == BuffLines(s[..i]) + [BuffLine(s[i])]
  {
    assert s[..i + 1][..i] == s[..i];
  }

  /** GenerateRogueBuff: one line per buff, in listing order. */
  method GenerateRogueBuff(buffs: seq<MazeBuff>) returns (lines: seq<string>)
    ensures lines == BuffLines(SortBuffs(buffs))
  {
    var sorted := SortBuffs(buffs);
    lines := [];
    for i := 0 to |sorted|
      invariant lines == BuffLines(sorted[..i])
    {
      BuffLinesSnoc(sorted, i);
      lines := lines + [BuffLine(sorted[i])];
    }
    assert sorted[..|sorted|] == sorted;
  }
}
