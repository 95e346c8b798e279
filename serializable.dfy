/**
 * Python values as the text-analysis modules see them, their `str()` text,
 * and the two ways the modules turn them into JSON: the recursive
 * `convert_to_serializable` and `json.dump(..., default=lambda x: x.__dict__)`.
 */
module Serializable {
  import opened Wrappers
  import opened PyStr
  import opened Outputs

  /**
   * A Python value. `PObj` is an object with a `__dict__` (its attributes,
   * in insertion order) whose `sentences` and `entities` are what `hasattr`
   * and `getattr` find. `PDict` is a plain dict, which has no `__dict__`.
   * `POther` is anything else, kept as its `str()` text.
   */
  datatype PyValue =
    | PNone
    | PBool(b: bool)
    | PInt(i: int)
    | PFloat(repr: string)
    | PStr(s: string)
    | PList(items: seq<PyValue>)
    | PDict(entries: seq<Entry>)
    | PObj(cls: string, attrs: seq<Entry>, sentences: Attr, entities: Attr)
    | POther(text: string)

  datatype Entry = Entry(key: string, value: PyValue)

  /** What `hasattr(obj, name)` and the iteration over `obj.name` see. */
  datatype Attr = Absent | Present(values: seq<PyValue>)

  /** The keys of a dict, an object's `__dict__` or a JSON object are distinct. */
  predicate UniqueKeys(entries: seq<Entry>) {
    forall i, j :: 0 <= i < j < |entries| ==> entries[i].key != entries[j].key
  }

  predicate UniqueMembers(members: seq<Member>) {
    forall i, j :: 0 <= i < j < |members| ==> members[i].key != members[j].key
  }

  function DigitChar(d: nat): char
    requires d < 10
  {
    "0123456789"[d]
  }

  /** `str(n)` for a non-negative integer. */
  function NatString(n: nat): string {
    if n < 10 then [DigitChar(n)] else NatString(n / 10) + [DigitChar(n % 10)]
  }

  function IntString(i: int): string {
    if i < 0 then "-" + NatString(-i) else NatString(i)
  }

  /**
   * `repr(v)`, with strings in single quotes (no escaping) and objects in a
   * stand-in form `Class(key=value, ...)` rather than the SDK's own `repr`.
   */
  function Repr(v: PyValue): string
    decreases v
  {
    match v
    case PNone => "None"
    case PBool(b) => if b then "True" else "False"
    case PInt(i) => IntString(i)
    case PFloat(r) => r
    case PStr(s) => "'" + s + "'"
    case PList(items) => "[" + Join(", ", seq(|items|, k requires 0 <= k < |items| => Repr(items[k]))) + "]"
    case PDict(entries) =>
      "{" + Join(", ", seq(|entries|, k requires 0 <= k < |entries| => "'" + entries[k].key + "': " + Repr(entries[k].value))) + "}"
    case PObj(cls, attrs, _, _) =>
      cls + "(" + Join(", ", seq(|attrs|, k requires 0 <= k < |attrs| => attrs[k].key + "=" + Repr(attrs[k].value))) + ")"
    case POther(text) => text
  }

  /** The `repr` of a non-empty dict opens with its first key. */
  lemma DictReprStart(entries: seq<Entry>)
    requires entries != []
    ensures StartsWith(Repr(PDict(entries)), "{'" + entries[0].key + "': ")
  {
    var parts := seq(|entries|, k requires 0 <= k < |entries| => "'" + entries[k].key + "': " + Repr(entries[k].value));
    JoinStart(", ", parts);
    var prefix := "{'" + entries[0].key + "': ";
    assert ("{" + Join(", ", parts) + "}")[..|prefix|] == prefix;
  }

  /** `str(v)`: a string is its own text; anything else is its `repr`. */
  function Str(v: PyValue): string {
    if v.PStr? then v.s else Repr(v)
  }

  /** `d[key] = value` on a dict kept as its members in insertion order. */
  function Put(members: seq<Member>, key: string, value: Json): seq<Member> {
    if members == [] then [Member(key, value)]
    else if members[0].key == key then [Member(key, value)] + members[1..]
    else [members[0]] + Put(members[1..], key, value)
  }

  function Keys(members: seq<Member>): set<string> {
    set k | 0 <= k < |members| :: members[k].key
  }

  /** The value stored under `key`, if any. */
  function Lookup(members: seq<Member>, key: string): Option<Json> {
    if members == [] then None
    else if members[0].key == key then Some(members[0].value)
    else Lookup(members[1..], key)
  }

  lemma KeysCons(m: Member, rest: seq<Member>)
    ensures Keys([m] + rest) == {m.key} + Keys(rest)
  {
    var r := [m] + rest;
    forall x | x in Keys(r) ensures x in {m.key} + Keys(rest) {
      var k :| 0 <= k < |r| && r[k].key == x;
      if k > 0 { assert rest[k - 1].key == x; }
    }
    forall x | x in Keys(rest) ensures x in Keys(r) {
      var k :| 0 <= k < |rest| && rest[k].key == x;
      assert r[k + 1].key == x;
    }
    assert r[0].key == m.key;
  }

  /** Assigning a key adds it to the keys and removes none. */
  lemma {:induction false} PutKeys(members: seq<Member>, key: string, value: Json)
    ensures Keys(Put(members, key, value)) == Keys(members) + {key}
  {
    if members == [] {
      KeysCons(Member(key, value), []);
    } else {
      assert members == [members[0]] + members[1..];
      KeysCons(members[0], members[1..]);
      if members[0].key == key {
        KeysCons(Member(key, value), members[1..]);
      } else {
        PutKeys(members[1..], key, value);
        KeysCons(members[0], Put(members[1..], key, value));
      }
    }
  }

  /** Assigning a key keeps the keys distinct, and replaces an existing key in place. */
  lemma {:induction false} PutUnique(members: seq<Member>, key: string, value: Json)
    requires UniqueMembers(members)
    ensures UniqueMembers(Put(members, key, value))
    ensures key in Keys(members) ==> |Put(members, key, value)| == |members|
  {
    if members != [] {
      var tail := members[1..];
      assert members == [members[0]] + tail;
      KeysCons(members[0], tail);
      assert members[0].key !in Keys(tail);
      if members[0].key == key {
        var r := [Member(key, value)] + tail;
        forall i, j | 0 <= i < j < |r| ensures r[i].key != r[j].key {
          if i == 0 {
            assert r[j].key in Keys(tail) by { assert tail[j - 1] == r[j]; }
          } else {
            assert r[i] == members[i] && r[j] == members[j];
          }
        }
      } else {
        PutUnique(tail, key, value);
        PutKeys(tail, key, value);
        var p := Put(tail, key, value);
        var r := [members[0]] + p;
        forall i, j | 0 <= i < j < |r| ensures r[i].key != r[j].key {
          if i == 0 {
            assert r[j].key in Keys(p) by { assert p[j - 1] == r[j]; }
          } else {
            assert r[i] == p[i - 1] && r[j] == p[j - 1];
          }
        }
      }
    }
  }

  /** After `d[key] = value`, `d[key]` is `value` and every other key reads as before. */
  lemma {:induction false} PutLookup(members: seq<Member>, key: string, value: Json)
    ensures Lookup(Put(members, key, value), key) == Some(value)
    ensures forall other :: other != key ==> Lookup(Put(members, key, value), other) == Lookup(members, other)
  {
    if members != [] && members[0].key != key {
      PutLookup(members[1..], key, value);
    }
  }

  lemma {:induction false} LookupUnique(members: seq<Member>, k: nat)
    requires UniqueMembers(members) && k < |members|
    ensures Lookup(members, members[k].key) == Some(members[k].value)
  {
    if k > 0 {
      assert members[0].key != members[k].key;
      assert members[1..][k - 1] == members[k];
      LookupUnique(members[1..], k - 1);
    }
  }

  /**
   * `convert_to_serializable`, for the converter as written
   * (`dictsAsObjects` false) and as evidently intended (true): a list is
   * converted item by item; an object becomes a dict of its converted
   * attributes, whose `sentences` and `entities` are then reassigned to the
   * converted lists `hasattr` finds; strings, numbers, booleans and `None`
   * stay as they are; anything else becomes its `str()` text. A plain dict
   * has no `__dict__`, so as written it falls through to `str()`.
   */
  function ConvertWith(v: PyValue, dictsAsObjects: bool): Json
    decreases v
  {
    match v
    case PNone => JNull
    case PBool(b) => JBool(b)
    case PInt(i) => JInt(i)
    case PFloat(r) => JFloat(r)
    case PStr(s) => JStr(s)
    case PList(items) => JArray(ConvertItems(items, dictsAsObjects))
    case PObj(_, attrs, sentences, entities) =>
      var members := ConvertEntries(attrs, dictsAsObjects);
      var withSentences :=
        if sentences.Present? then Put(members, "sentences", JArray(ConvertItems(sentences.values, dictsAsObjects)))
        else members;
      JObject(
        if entities.Present? then Put(withSentences, "entities", JArray(ConvertItems(entities.values, dictsAsObjects)))
        else withSentences)
    case PDict(entries) => if dictsAsObjects then JObject(ConvertEntries(entries, dictsAsObjects)) else JStr(Str(v))
    case POther(_) => JStr(Str(v))
  }

  /** `[convert_to_serializable(item) for item in items]` */
  function ConvertItems(items: seq<PyValue>, dictsAsObjects: bool): (r: seq<Json>)
    ensures |r| == |items|
    decreases items
  {
    if items == [] then [] else [ConvertWith(items[0], dictsAsObjects)] + ConvertItems(items[1..], dictsAsObjects)
  }

  /** `{key: convert_to_serializable(value) for key, value in entries}` */
  function ConvertEntries(entries: seq<Entry>, dictsAsObjects: bool): (r: seq<Member>)
    ensures |r| == |entries|
    ensures forall k :: 0 <= k < |r| ==> r[k].key == entries[k].key
    decreases entries
  {
    if entries == [] then []
    else [Member(entries[0].key, ConvertWith(entries[0].value, dictsAsObjects))] + ConvertEntries(entries[1..], dictsAsObjects)
  }

  /** A list converts item by item: same length, same order. */
  lemma {:induction false} ConvertItemsAt(items: seq<PyValue>, dictsAsObjects: bool)
    ensures forall k :: 0 <= k < |items| ==> ConvertItems(items, dictsAsObjects)[k] == ConvertWith(items[k], dictsAsObjects)
  {
    if items != [] {
      ConvertItemsAt(items[1..], dictsAsObjects);
      forall k | 0 < k < |items| ensures ConvertItems(items, dictsAsObjects)[k] == ConvertWith(items[k], dictsAsObjects) {
        assert items[1..][k - 1] == items[k];
      }
    }
  }

  lemma {:induction false} ConvertEntriesAt(entries: seq<Entry>, dictsAsObjects: bool)
    ensures forall k :: 0 <= k < |entries| ==>
      ConvertEntries(entries, dictsAsObjects)[k].value == ConvertWith(entries[k].value, dictsAsObjects)
  {
    if entries != [] {
      ConvertEntriesAt(entries[1..], dictsAsObjects);
      forall k | 0 < k < |entries|
        ensures ConvertEntries(entries, dictsAsObjects)[k].value == ConvertWith(entries[k].value, dictsAsObjects)
      {
        assert entries[1..][k - 1] == entries[k];
      }
    }
  }

  /** The keys of a converted dict or `__dict__`: exactly the original keys, still distinct, each with its converted value. */
  lemma ConvertEntriesKeys(entries: seq<Entry>, dictsAsObjects: bool)
    requires UniqueKeys(entries)
    ensures var members := ConvertEntries(entries, dictsAsObjects);
      && UniqueMembers(members)
      && Keys(members) == (set k | 0 <= k < |entries| :: entries[k].key)
      && forall k :: 0 <= k < |entries| ==> Lookup(members, entries[k].key) == Some(ConvertWith(entries[k].value, dictsAsObjects))
  {
    var members := ConvertEntries(entries, dictsAsObjects);
    ConvertEntriesAt(entries, dictsAsObjects);
    forall k | 0 <= k < |entries|
      ensures Lookup(members, entries[k].key) == Some(ConvertWith(entries[k].value, dictsAsObjects))
    {
      LookupUnique(members, k);
    }
  }

  /** `convert_to_serializable` as written. */
  function ConvertAsWritten(v: PyValue): (j: Json)
    ensures v.PDict? ==> j == JStr(Str(v))
    ensures v.POther? ==> j == JStr(v.text)
  {
    ConvertWith(v, false)
  }

  /** `convert_to_serializable` with a plain dict converted like an object's `__dict__`. */
  function ConvertCorrected(v: PyValue): (j: Json)
    ensures v.PDict? && UniqueKeys(v.entries) ==>
      && j.JObject?
      && UniqueMembers(j.members)
      && Keys(j.members) == (set k | 0 <= k < |v.entries| :: v.entries[k].key)
      && forall k :: 0 <= k < |v.entries| ==> Lookup(j.members, v.entries[k].key) == Some(ConvertCorrected(v.entries[k].value))
  {
    if v.PDict? && UniqueKeys(v.entries) then
      ConvertEntriesKeys(v.entries, true);
      ConvertWith(v, true)
    else
      ConvertWith(v, true)
  }

  /**
   * An object becomes a JSON object with exactly its attribute keys, plus
   * `sentences` and `entities` when it has them; an attribute other than
   * those two keeps its own converted value, and those two hold the
   * converted lists.
   */
  lemma ConvertObject(cls: string, attrs: seq<Entry>, sentences: Attr, entities: Attr, dictsAsObjects: bool)
    requires UniqueKeys(attrs)
    ensures var j := ConvertWith(PObj(cls, attrs, sentences, entities), dictsAsObjects);
      && j.JObject?
      && UniqueMembers(j.members)
      && Keys(j.members) == (set k | 0 <= k < |attrs| :: attrs[k].key)
                            + (if sentences.Present? then {"sentences"} else {})
                            + (if entities.Present? then {"entities"} else {})
      && (forall k :: 0 <= k < |attrs| && attrs[k].key != "sentences" && attrs[k].key != "entities" ==>
            Lookup(j.members, attrs[k].key) == Some(ConvertWith(attrs[k].value, dictsAsObjects)))
      && (sentences.Present? ==> Lookup(j.members, "sentences") == Some(JArray(ConvertItems(sentences.values, dictsAsObjects))))
      && (entities.Present? ==> Lookup(j.members, "entities") == Some(JArray(ConvertItems(entities.values, dictsAsObjects))))
  {
    ConvertEntriesKeys(attrs, dictsAsObjects);
    var s := if sentences.Present? then Some(JArray(ConvertItems(sentences.values, dictsAsObjects))) else None;
    var e := if entities.Present? then Some(JArray(ConvertItems(entities.values, dictsAsObjects))) else None;
    PutListAttributes(ConvertEntries(attrs, dictsAsObjects), s, e);
  }

  /** Setting `sentences` and then `entities`, each when given, on distinct members. */
  lemma PutListAttributes(members: seq<Member>, s: Option<Json>, e: Option<Json>)
    requires UniqueMembers(members)
    ensures var w := if s.Some? then Put(members, "sentences", s.value) else members;
      var r := if e.Some? then Put(w, "entities", e.value) else w;
      && UniqueMembers(r)
      && Keys(r) == Keys(members) + (if s.Some? then {"sentences"} else {}) + (if e.Some? then {"entities"} else {})
      && (forall other :: other != "sentences" && other != "entities" ==> Lookup(r, other) == Lookup(members, other))
      && (s.Some? ==> Lookup(r, "sentences") == s)
      && (e.Some? ==> Lookup(r, "entities") == e)
  {
    var w := members;
    if s.Some? {
      PutKeys(members, "sentences", s.value);
      PutUnique(members, "sentences", s.value);
      PutLookup(members, "sentences", s.value);
      w := Put(members, "sentences", s.value);
    }
    if e.Some? {
      PutKeys(w, "entities", e.value);
      PutUnique(w, "entities", e.value);
      PutLookup(w, "entities", e.value);
    }
  }

  /** Data made only of `None`, booleans, numbers, strings and lists. */
  predicate Plain(v: PyValue) {
    match v
    case PNone => true
    case PBool(_) => true
    case PInt(_) => true
    case PFloat(_) => true
    case PStr(_) => true
    case PList(items) => forall k :: 0 <= k < |items| ==> Plain(items[k])
    case _ => false
  }

  /** `json.load` of a document: arrays become lists and objects dicts. */
  function FromJson(j: Json): PyValue
    decreases j
  {
    match j
    case JNull => PNone
    case JBool(b) => PBool(b)
    case JInt(i) => PInt(i)
    case JFloat(r) => PFloat(r)
    case JStr(s) => PStr(s)
    case JArray(items) => PList(FromJsonItems(items))
    case JObject(members) => PDict(FromJsonMembers(members))
  }

  function FromJsonItems(items: seq<Json>): (r: seq<PyValue>)
    ensures |r| == |items|
    decreases items
  {
    if items == [] then [] else [FromJson(items[0])] + FromJsonItems(items[1..])
  }

  function FromJsonMembers(members: seq<Member>): seq<Entry>
    decreases members
  {
    if members == [] then [] else [Entry(members[0].key, FromJson(members[0].value))] + FromJsonMembers(members[1..])
  }

  /** Plain data comes back unchanged from its JSON: primitives are kept and lists keep length and order. */
  lemma {:induction false} PlainRoundTrip(v: PyValue, dictsAsObjects: bool)
    requires Plain(v)
    ensures FromJson(ConvertWith(v, dictsAsObjects)) == v
    decreases v, 1
  {
    if v.PList? {
      PlainItemsRoundTrip(v.items, dictsAsObjects);
    }
  }

  lemma {:induction false} PlainItemsRoundTrip(items: seq<PyValue>, dictsAsObjects: bool)
    requires forall k :: 0 <= k < |items| ==> Plain(items[k])
    ensures FromJsonItems(ConvertItems(items, dictsAsObjects)) == items
    decreases items, 0
  {
    if items != [] {
      PlainRoundTrip(items[0], dictsAsObjects);
      PlainItemsRoundTrip(items[1..], dictsAsObjects);
      assert items == [items[0]] + items[1..];
    }
  }

  /** Whether a plain dict occurs anywhere in `v`. */
  predicate HasDict(v: PyValue)
    decreases v
  {
    match v
    case PDict(_) => true
    case PList(items) => exists k :: 0 <= k < |items| && HasDict(items[k])
    case PObj(_, attrs, sentences, entities) =>
      || (exists k :: 0 <= k < |attrs| && HasDict(attrs[k].value))
      || (sentences.Present? && exists k :: 0 <= k < |sentences.values| && HasDict(sentences.values[k]))
      || (entities.Present? && exists k :: 0 <= k < |entities.values| && HasDict(entities.values[k]))
    case _ => false
  }

  /** The correction changes nothing for a value that holds no plain dict. */
  lemma {:induction false} CorrectionOnlyAffectsDicts(v: PyValue)
    requires !HasDict(v)
    ensures ConvertWith(v, true) == ConvertWith(v, false)
    decreases v, 1
  {
    match v
    case PList(items) =>
      ItemsWithoutDicts(items);
    case PObj(_, attrs, sentences, entities) =>
      EntriesWithoutDicts(attrs);
      if sentences.Present? { ItemsWithoutDicts(sentences.values); }
      if entities.Present? { ItemsWithoutDicts(entities.values); }
    case _ =>
  }

  lemma {:induction false} ItemsWithoutDicts(items: seq<PyValue>)
    requires forall k :: 0 <= k < |items| ==> !HasDict(items[k])
    ensures ConvertItems(items, true) == ConvertItems(items, false)
    decreases items, 0
  {
    if items != [] {
      CorrectionOnlyAffectsDicts(items[0]);
      ItemsWithoutDicts(items[1..]);
    }
  }

  lemma {:induction false} EntriesWithoutDicts(entries: seq<Entry>)
    requires forall k :: 0 <= k < |entries| ==> !HasDict(entries[k].value)
    ensures ConvertEntries(entries, true) == ConvertEntries(entries, false)
    decreases entries, 0
  {
    if entries != [] {
      CorrectionOnlyAffectsDicts(entries[0].value);
      EntriesWithoutDicts(entries[1..]);
    }
  }

  /** Assigning a key the value it already holds changes nothing. */
  lemma {:induction false} PutSame(members: seq<Member>, key: string, value: Json)
    requires Lookup(members, key) == Some(value)
    ensures Put(members, key, value) == members
  {
    if members[0].key != key {
      PutSame(members[1..], key, value);
    }
  }

  /** `obj.__dict__[name]`, the first attribute of that name. */
  function Attribute(attrs: seq<Entry>, name: string): Option<PyValue> {
    if attrs == [] then None
    else if attrs[0].key == name then Some(attrs[0].value)
    else Attribute(attrs[1..], name)
  }

  /** Converting a `__dict__` converts the value found under each name. */
  lemma {:induction false} ConvertEntriesLookup(attrs: seq<Entry>, name: string, dictsAsObjects: bool)
    ensures Lookup(ConvertEntries(attrs, dictsAsObjects), name) ==
      (match Attribute(attrs, name) case None => None case Some(v) => Some(ConvertWith(v, dictsAsObjects)))
  {
    if attrs != [] && attrs[0].key != name {
      ConvertEntriesLookup(attrs[1..], name, dictsAsObjects);
    }
  }

  /** Why `json.dump(..., default=lambda x: x.__dict__)` fails: the value has no `__dict__`. */
  datatype DumpError = NoDict(text: string)

  /**
   * `json.dumps(v, default=lambda x: x.__dict__)`: dicts, lists and
   * primitives are written as they are, an object as its `__dict__`, and
   * anything else makes the default raise.
   */
  function DumpDefault(v: PyValue): Result<Json, DumpError>
    decreases v
  {
    match v
    case PNone => Ok(JNull)
    case PBool(b) => Ok(JBool(b))
    case PInt(i) => Ok(JInt(i))
    case PFloat(r) => Ok(JFloat(r))
    case PStr(s) => Ok(JStr(s))
    case PList(items) =>
      (match DumpItems(items) case Ok(js) => Ok(JArray(js)) case Err(e) => Err(e))
    case PDict(entries) =>
      (match DumpEntries(entries) case Ok(ms) => Ok(JObject(ms)) case Err(e) => Err(e))
    case PObj(_, attrs, _, _) =>
      (match DumpEntries(attrs) case Ok(ms) => Ok(JObject(ms)) case Err(e) => Err(e))
    case POther(text) => Err(NoDict(text))
  }

  function DumpItems(items: seq<PyValue>): Result<seq<Json>, DumpError>
    decreases items
  {
    if items == [] then Ok([])
    else
      match DumpDefault(items[0])
      case Err(e) => Err(e)
      case Ok(j) =>
        match DumpItems(items[1..])
        case Err(e) => Err(e)
        case Ok(js) => Ok([j] + js)
  }

  function DumpEntries(entries: seq<Entry>): Result<seq<Member>, DumpError>
    decreases entries
  {
    if entries == [] then Ok([])
    else
      match DumpDefault(entries[0].value)
      case Err(e) => Err(e)
      case Ok(j) =>
        match DumpEntries(entries[1..])
        case Err(e) => Err(e)
        case Ok(ms) => Ok([Member(entries[0].key, j)] + ms)
  }

  /** Whether a value with no `__dict__` occurs anywhere in `v`. */
  predicate HasOther(v: PyValue)
    decreases v
  {
    match v
    case POther(_) => true
    case PList(items) => exists k :: 0 <= k < |items| && HasOther(items[k])
    case PDict(entries) => exists k :: 0 <= k < |entries| && HasOther(entries[k].value)
    case PObj(_, attrs, _, _) => exists k :: 0 <= k < |attrs| && HasOther(attrs[k].value)
    case _ => false
  }

  /** The dump fails exactly when some value in it has no `__dict__`. */
  lemma {:induction false} DumpFailsIffOther(v: PyValue)
    ensures DumpDefault(v).Err? <==> HasOther(v)
    decreases v, 1
  {
    match v
    case PList(items) => DumpItemsFailIffOther(items);
    case PDict(entries) => DumpEntriesFailIffOther(entries);
    case PObj(_, attrs, _, _) => DumpEntriesFailIffOther(attrs);
    case _ =>
  }

  lemma {:induction false} DumpItemsFailIffOther(items: seq<PyValue>)
    ensures DumpItems(items).Err? <==> exists k :: 0 <= k < |items| && HasOther(items[k])
    decreases items, 0
  {
    if items != [] {
      DumpFailsIffOther(items[0]);
      DumpItemsFailIffOther(items[1..]);
      if exists k :: 0 <= k < |items| && HasOther(items[k]) {
        var k :| 0 <= k < |items| && HasOther(items[k]);
        if k > 0 { assert items[1..][k - 1] == items[k]; }
      }
      if exists k :: 0 <= k < |items[1..]| && HasOther(items[1..][k]) {
        var k :| 0 <= k < |items[1..]| && HasOther(items[1..][k]);
        assert items[k + 1] == items[1..][k];
      }
    }
  }

  lemma {:induction false} DumpEntriesFailIffOther(entries: seq<Entry>)
    ensures DumpEntries(entries).Err? <==> exists k :: 0 <= k < |entries| && HasOther(entries[k].value)
    decreases entries, 0
  {
    if entries != [] {
      DumpFailsIffOther(entries[0].value);
      DumpEntriesFailIffOther(entries[1..]);
      if exists k :: 0 <= k < |entries| && HasOther(entries[k].value) {
        var k :| 0 <= k < |entries| && HasOther(entries[k].value);
        if k > 0 { assert entries[1..][k - 1] == entries[k]; }
      }
      if exists k :: 0 <= k < |entries[1..]| && HasOther(entries[1..][k].value) {
        var k :| 0 <= k < |entries[1..]| && HasOther(entries[1..][k].value);
        assert entries[k + 1] == entries[1..][k];
      }
    }
  }

  /**
   * An object whose `sentences` and `entities`, when `hasattr` finds them,
   * are the lists kept in its `__dict__` under those names, as in the
   * text-analytics result records; and the same for everything inside.
   */
  predicate Consistent(v: PyValue)
    decreases v
  {
    match v
    case PList(items) => forall k :: 0 <= k < |items| ==> Consistent(items[k])
    case PDict(entries) => forall k :: 0 <= k < |entries| ==> Consistent(entries[k].value)
    case PObj(_, attrs, sentences, entities) =>
      && (forall k :: 0 <= k < |attrs| ==> Consistent(attrs[k].value))
      && (sentences.Present? ==> Attribute(attrs, "sentences") == Some(PList(sentences.values)))
      && (entities.Present? ==> Attribute(attrs, "entities") == Some(PList(entities.values)))
    case _ => true
  }

  /**
   * On consistent data whose dump succeeds, the corrected converter writes
   * exactly the JSON that `json.dumps(..., default=lambda x: x.__dict__)`
   * writes.
   */
  lemma {:induction false} DumpAgreesWithCorrected(v: PyValue)
    requires Consistent(v) && !HasOther(v)
    ensures DumpDefault(v) == Ok(ConvertWith(v, true))
    decreases v, 1
  {
    match v
    case PList(items) =>
      DumpItemsAgree(items);
    case PDict(entries) =>
      DumpEntriesAgree(entries);
    case PObj(_, attrs, sentences, entities) =>
      DumpEntriesAgree(attrs);
      var members := ConvertEntries(attrs, true);
      if sentences.Present? {
        ConvertEntriesLookup(attrs, "sentences", true);
        PutSame(members, "sentences", JArray(ConvertItems(sentences.values, true)));
      }
      if entities.Present? {
        ConvertEntriesLookup(attrs, "entities", true);
        PutSame(members, "entities", JArray(ConvertItems(entities.values, true)));
      }
    case _ =>
  }

  lemma {:induction false} DumpItemsAgree(items: seq<PyValue>)
    requires forall k :: 0 <= k < |items| ==> Consistent(items[k]) && !HasOther(items[k])
    ensures DumpItems(items) == Ok(ConvertItems(items, true))
    decreases items, 0
  {
    if items != [] {
      DumpAgreesWithCorrected(items[0]);
      DumpItemsAgree(items[1..]);
    }
  }

  lemma {:induction false} DumpEntriesAgree(entries: seq<Entry>)
    requires forall k :: 0 <= k < |entries| ==> Consistent(entries[k].value) && !HasOther(entries[k].value)
    ensures DumpEntries(entries) == Ok(ConvertEntries(entries, true))
    decreases entries, 0
  {
    if entries != [] {
      DumpAgreesWithCorrected(entries[0].value);
      DumpEntriesAgree(entries[1..]);
    }
  }
}
