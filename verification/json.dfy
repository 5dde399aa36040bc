/**
 * The JSON value tree that every protocol type is encoded to and decoded
 * from, and the field-level rules that serde's derived (de)serializers apply
 * to it:
 *  - a non-`Option` field is always written, and decoding fails when its key
 *    is missing;
 *  - an `Option` field marked `skip_serializing_if = "Option::is_none"` is
 *    written only when it holds a value, and decodes to `None` when its key
 *    is missing or holds `null`;
 *  - keys a struct does not declare are ignored on decode.
 * Text parsing and printing are not part of this model.
 */
module Json {

  datatype Json =
    | JNull
    | JBool(b: bool)
    | JInt(i: int)
    | JFloat(f: real)
    | JStr(s: string)
    | JArr(items: seq<Json>)
    | JObj(fields: map<string, Json>)

  /** The members of a JSON object; also `serde_json::Map<String, Value>` and `Meta`. */
  type Object = map<string, Json>

  datatype Option<+T> = None | Some(value: T)

  /** What went wrong in a decode; the formatted message text is not modelled. */
  datatype DecodeError =
    | InvalidType(expected: string)
    | InvalidValue(expected: string)
    | MissingField(field: string)
    | UnknownFields(keys: set<string>)
    | UnknownVariant(found: string)
    | InvalidEntry
    | TypeMismatch(typeName: string, expected: string, found: string)
    | NoVariantMatched(typeName: string)

  datatype Result<+T> = Ok(value: T) | Err(error: DecodeError) {
    predicate IsFailure() { Err? }
    function PropagateFailure<U>(): Result<U> requires Err? { Err(error) }
    function Extract(): T requires Ok? { value }
  }

  /** A check that carries no value, used with `:-` like Rust's `?` on `Result<(), E>`. */
  datatype Outcome = Pass | Fail(error: DecodeError) {
    predicate IsFailure() { Fail? }
    function PropagateFailure<U>(): Result<U> requires Fail? { Err(error) }
  }

  /** Rust's `i64`. */
  newtype int64 = x: int | -0x8000_0000_0000_0000 <= x < 0x8000_0000_0000_0000

  // ---------------------------------------------------------------------
  // Scalars

  function EncodeString(s: string): Json { JStr(s) }

  function DecodeString(j: Json): Result<string> {
    if j.JStr? then Ok(j.s) else Err(InvalidType("a string"))
  }

  function EncodeBool(b: bool): Json { JBool(b) }

  function DecodeBool(j: Json): Result<bool> {
    if j.JBool? then Ok(j.b) else Err(InvalidType("a boolean"))
  }

  function EncodeInt64(n: int64): Json { JInt(n as int) }

  /** An `i64` accepts only an integer number, and only one in range. */
  function DecodeInt64(j: Json): (r: Result<int64>)
    ensures r.Ok? <==> j.JInt? && -0x8000_0000_0000_0000 <= j.i < 0x8000_0000_0000_0000
    ensures r.Ok? ==> r.value as int == j.i
  {
    if !j.JInt? then Err(InvalidType("i64"))
    else if -0x8000_0000_0000_0000 <= j.i < 0x8000_0000_0000_0000 then Ok(j.i as int64)
    else Err(InvalidValue("i64"))
  }

  function EncodeFloat(x: real): Json { JFloat(x) }

  /** An `f32`/`f64` accepts any JSON number, integer or not. */
  function DecodeFloat(j: Json): (r: Result<real>)
    ensures r.Ok? <==> j.JInt? || j.JFloat?
    ensures j.JInt? ==> r == Ok(j.i as real)
  {
    if j.JFloat? then Ok(j.f)
    else if j.JInt? then Ok(j.i as real)
    else Err(InvalidType("a number"))
  }

  /** A `serde_json::Value` accepts every JSON value as it is. */
  function DecodeValue(j: Json): Result<Json> { Ok(j) }

  function EncodeValue(v: Json): Json { v }

  // ---------------------------------------------------------------------
  // Sequences (`Vec<T>`)

  function EncodeSeq<T>(xs: seq<T>, enc: T -> Json): (r: Json)
    ensures r.JArr? && |r.items| == |xs|
    ensures forall i :: 0 <= i < |xs| ==> r.items[i] == enc(xs[i])
  {
    JArr(seq(|xs|, i requires 0 <= i < |xs| => enc(xs[i])))
  }

  /** Decodes the elements in order; the first element that fails fails the whole. */
  function DecodeItems<T>(items: seq<Json>, dec: Json -> Result<T>): (r: Result<seq<T>>)
    ensures r.Ok? <==> forall i :: 0 <= i < |items| ==> dec(items[i]).Ok?
    ensures r.Ok? ==> |r.value| == |items| && forall i :: 0 <= i < |items| ==> dec(items[i]) == Ok(r.value[i])
    decreases |items|
  {
    if items == [] then Ok([])
    else
      var head :- dec(items[0]);
      var tail :- DecodeItems(items[1..], dec);
      assert forall i :: 1 <= i < |items| ==> items[i] == items[1..][i - 1];
      Ok([head] + tail)
  }

  function DecodeSeq<T>(j: Json, dec: Json -> Result<T>): Result<seq<T>> {
    if j.JArr? then DecodeItems(j.items, dec) else Err(InvalidType("a sequence"))
  }

  lemma SeqRoundTrip<T>(xs: seq<T>, enc: T -> Json, dec: Json -> Result<T>)
    requires forall i :: 0 <= i < |xs| ==> dec(enc(xs[i])) == Ok(xs[i])
    ensures DecodeSeq(EncodeSeq(xs, enc), dec) == Ok(xs)
  {
    var r := DecodeItems(EncodeSeq(xs, enc).items, dec);
    assert r.Ok?;
    assert r.value == xs;
  }

  /** `Vec<String>`. */
  function EncodeStrings(xs: seq<string>): Json { EncodeSeq(xs, EncodeString) }

  function DecodeStrings(j: Json): Result<seq<string>> { DecodeSeq(j, DecodeString) }

  lemma StringsRoundTrip(xs: seq<string>)
    ensures DecodeStrings(EncodeStrings(xs)) == Ok(xs)
  {
    SeqRoundTrip(xs, EncodeString, DecodeString);
  }

  // ---------------------------------------------------------------------
  // String-keyed maps (`HashMap<String, T>`, `Map<String, Value>`)

  function EncodeMap<T>(m: map<string, T>, enc: T -> Json): (r: Json)
    ensures r.JObj? && r.fields.Keys == m.Keys
    ensures forall k :: k in m ==> r.fields[k] == enc(m[k])
  {
    JObj(map k | k in m :: enc(m[k]))
  }

  /**
   * Every entry must decode. Which failing entry serde reports depends on the
   * input's key order, which a map does not have, so the error is `InvalidEntry`.
   */
  function DecodeMap<T>(j: Json, dec: Json -> Result<T>): (r: Result<map<string, T>>)
    ensures r.Ok? <==> j.JObj? && forall k :: k in j.fields ==> dec(j.fields[k]).Ok?
    ensures r.Ok? ==> r.value.Keys == j.fields.Keys
    ensures r.Ok? ==> forall k :: k in j.fields ==> dec(j.fields[k]) == Ok(r.value[k])
  {
    if !j.JObj? then Err(InvalidType("a map"))
    else if forall k :: k in j.fields ==> dec(j.fields[k]).Ok? then
      Ok(map k | k in j.fields :: dec(j.fields[k]).value)
    else Err(InvalidEntry)
  }

  lemma MapRoundTrip<T>(m: map<string, T>, enc: T -> Json, dec: Json -> Result<T>)
    requires forall k :: k in m ==> dec(enc(m[k])) == Ok(m[k])
    ensures DecodeMap(EncodeMap(m, enc), dec) == Ok(m)
  {
    var r := DecodeMap(EncodeMap(m, enc), dec);
    assert r.Ok?;
    assert r.value == m;
  }

  /** `Map<String, Value>`: an object whose member values are kept as they are. */
  function DecodeObject(j: Json): Result<Object> {
    DecodeMap(j, DecodeValue)
  }

  function EncodeObject(m: Object): Json {
    EncodeMap(m, EncodeValue)
  }

  lemma ObjectRoundTrip(m: Object)
    ensures DecodeObject(EncodeObject(m)) == Ok(m)
  {
    MapRoundTrip(m, EncodeValue, DecodeValue);
  }

  /** `HashMap<String, String>`. */
  function DecodeStringMap(j: Json): Result<map<string, string>> {
    DecodeMap(j, DecodeString)
  }

  function EncodeStringMap(m: map<string, string>): Json {
    EncodeMap(m, EncodeString)
  }

  // ---------------------------------------------------------------------
  // Struct fields

  /** A derived struct is read from a JSON object. */
  function AsObject(j: Json, typeName: string): Result<Object> {
    if j.JObj? then Ok(j.fields) else Err(InvalidType("struct " + typeName))
  }

  /** A non-`Option` field: its key must be present. */
  function Required<T>(obj: Object, key: string, dec: Json -> Result<T>): (r: Result<T>)
    ensures r.Ok? ==> key in obj && dec(obj[key]) == r
    ensures key !in obj ==> r == Err(MissingField(key))
  {
    if key in obj then dec(obj[key]) else Err(MissingField(key))
  }

  /** An `Option` field accepts a missing key, `null`, or a value its decoder accepts. */
  predicate OptionalAccepts<T>(obj: Object, key: string, dec: Json -> Result<T>) {
    key !in obj || obj[key] == JNull || dec(obj[key]).Ok?
  }

  /** An `Option` field: a missing key and an explicit `null` both give `None`. */
  function Optional<T>(obj: Object, key: string, dec: Json -> Result<T>): (r: Result<Option<T>>)
    ensures r.Ok? <==> OptionalAccepts(obj, key, dec)
    ensures key !in obj || obj[key] == JNull ==> r == Ok(None)
    ensures r.Ok? && r.value.Some? ==> key in obj && dec(obj[key]) == Ok(r.value.value)
  {
    if key !in obj || obj[key] == JNull then Ok(None)
    else
      var v :- dec(obj[key]);
      Ok(Some(v))
  }

  /**
   * Adds the member written for an `Option` field marked
   * `skip_serializing_if = "Option::is_none"`: present only when the field holds a value.
   */
  function WithOptional<T>(obj: Object, key: string, o: Option<T>, enc: T -> Json): (r: Object)
    ensures o.None? ==> r == obj
    ensures o.Some? ==> r == obj[key := enc(o.value)]
  {
    if o.Some? then obj[key := enc(o.value)] else obj
  }

  /** A present, non-null member holding the encoding of `v` reads back as `Some(v)`. */
  lemma OptionalPresent<T>(obj: Object, key: string, v: T, enc: T -> Json, dec: Json -> Result<T>)
    requires key in obj && obj[key] == enc(v) && enc(v) != JNull
    requires dec(enc(v)) == Ok(v)
    ensures Optional(obj, key, dec) == Ok(Some(v))
  {
  }

  /** An `Option` field written by `WithOptional` reads back as itself, unless its value encodes as `null`. */
  lemma OptionalRoundTrip<T>(obj: Object, key: string, o: Option<T>, enc: T -> Json, dec: Json -> Result<T>)
    requires o.None? ==> key !in obj
    requires o.Some? ==> key in obj && obj[key] == enc(o.value) && enc(o.value) != JNull
    requires o.Some? ==> dec(enc(o.value)) == Ok(o.value)
    ensures Optional(obj, key, dec) == Ok(o)
  {
  }

  // ---------------------------------------------------------------------
  // Objects built from a list of members, for structs with many fields

  /** A member an encoder may write: its key, and its value unless the field is a skipped `None`. */
  type Entry = (string, Option<Json>)

  /** The member for an `Option` field that is skipped when `None`. */
  function OptionalEntry<T>(key: string, o: Option<T>, enc: T -> Json): (e: Entry)
    ensures e.0 == key && (e.1.Some? <==> o.Some?)
    ensures o.Some? ==> e.1.value == enc(o.value)
  {
    (key, if o.Some? then Some(enc(o.value)) else None)
  }

  /** Writes the present members of `entries` into `obj`, in order. */
  function AddEntries(obj: Object, entries: seq<Entry>): Object
    decreases |entries|
  {
    if entries == [] then obj
    else
      var e := entries[0];
      AddEntries(if e.1.Some? then obj[e.0 := e.1.value] else obj, entries[1..])
  }

  predicate DistinctKeys(entries: seq<Entry>) {
    forall i, j :: 0 <= i < j < |entries| ==> entries[i].0 != entries[j].0
  }

  /** Members whose key no entry names are left as they were. */
  lemma {:induction false} AddEntriesKeeps(obj: Object, entries: seq<Entry>, k: string)
    requires forall i :: 0 <= i < |entries| ==> entries[i].0 != k
    ensures k in AddEntries(obj, entries) <==> k in obj
    ensures k in obj ==> AddEntries(obj, entries)[k] == obj[k]
    decreases |entries|
  {
    if entries != [] {
      var e := entries[0];
      AddEntriesKeeps(if e.1.Some? then obj[e.0 := e.1.value] else obj, entries[1..], k);
    }
  }

  /** With distinct keys, a present entry ends up in the object and an absent one adds nothing. */
  lemma {:induction false} AddEntriesWrites(obj: Object, entries: seq<Entry>, i: nat)
    requires i < |entries| && DistinctKeys(entries)
    ensures entries[i].1.Some? ==> entries[i].0 in AddEntries(obj, entries) && AddEntries(obj, entries)[entries[i].0] == entries[i].1.value
    ensures entries[i].1.None? ==> (entries[i].0 in AddEntries(obj, entries) <==> entries[i].0 in obj)
    decreases i
  {
    var e := entries[0];
    var next := if e.1.Some? then obj[e.0 := e.1.value] else obj;
    if i == 0 {
      AddEntriesKeeps(next, entries[1..], e.0);
    } else {
      AddEntriesWrites(next, entries[1..], i - 1);
      if entries[i].1.None? {
        assert entries[i].0 != e.0;
      }
    }
  }

  /** An `Option` field written as the `i`-th of several distinct members reads back as itself. */
  lemma OptionalEntryRoundTrip<T>(entries: seq<Entry>, i: nat, key: string, o: Option<T>, enc: T -> Json, dec: Json -> Result<T>)
    requires DistinctKeys(entries) && i < |entries| && entries[i] == OptionalEntry(key, o, enc)
    requires o.Some? ==> enc(o.value) != JNull && dec(enc(o.value)) == Ok(o.value)
    ensures Optional(AddEntries(map[], entries), key, dec) == Ok(o)
  {
    AddEntriesWrites(map[], entries, i);
  }
}
