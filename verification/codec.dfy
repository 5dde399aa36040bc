/**
 * The two pieces of codec machinery the protocol types share:
 *  - the discriminator discipline of the hand-written tagged structs: encoding
 *    adds a fixed `type` literal, decoding reads `type` as a plain string and
 *    checks it with `validate_type_field`;
 *  - the resolution of `#[serde(untagged)]` enums: the variants are tried in
 *    their declared order and the first one that decodes wins;
 * and the strict `Empty` struct that ends most untagged unions.
 */
module Codec {
  import opened Json

  /**
   * `validate_type_field`: passes exactly when the discriminator read from the
   * wire is the expected literal, and otherwise fails with an error naming the
   * type, the expected literal and the value found.
   */
  function ValidateTypeField(actual: string, expected: string, typeName: string): (r: Outcome)
    ensures r.Pass? <==> actual == expected
    ensures r.Fail? ==> r.error == TypeMismatch(typeName, expected, actual)
  {
    if actual != expected then Fail(TypeMismatch(typeName, expected, actual)) else Pass
  }

  /** The wire key of every discriminator these structs add. */
  const TypeKey: string := "type"

  /** `j` is an object whose `type` member is the string `tag`. */
  predicate HasTag(j: Json, tag: string) {
    j.JObj? && TypeKey in j.fields && j.fields[TypeKey] == JStr(tag)
  }

  /**
   * The object a hand-written `serialize` produces: the helper struct's
   * members plus `type`, whose value is the `'static` literal of the helper.
   */
  function Tagged(members: Object, tag: string): (j: Json)
    ensures HasTag(j, tag)
    ensures j.fields.Keys == members.Keys + {TypeKey}
  {
    JObj(members[TypeKey := JStr(tag)])
  }

  /**
   * The tail of a hand-written `deserialize`: the helper's `type: String`
   * field (required, so a missing key fails) checked against the literal.
   */
  function CheckTag(obj: Object, expected: string, typeName: string): (r: Outcome)
    ensures r.Pass? <==> HasTag(JObj(obj), expected)
    ensures TypeKey !in obj ==> r == Fail(MissingField(TypeKey))
    ensures TypeKey in obj && obj[TypeKey].JStr? && obj[TypeKey].s != expected ==>
              r == Fail(TypeMismatch(typeName, expected, obj[TypeKey].s))
  {
    if TypeKey !in obj then Fail(MissingField(TypeKey))
    else if !obj[TypeKey].JStr? then Fail(InvalidType("a string"))
    else ValidateTypeField(obj[TypeKey].s, expected, typeName)
  }

  /**
   * A hand-written `deserialize`: parse the helper (the domain members, read
   * by `members`, plus `type: String`), validate `type`, and drop it. Success
   * therefore needs the literal tag, and then gives what `members` gives.
   */
  function DecodeTagged<T>(j: Json, typeName: string, tag: string, members: Object -> Result<T>): (r: Result<T>)
    ensures r.Ok? ==> HasTag(j, tag) && members(j.fields) == r
    ensures HasTag(j, tag) && members(j.fields).Ok? ==> r == members(j.fields)
  {
    var obj :- AsObject(j, typeName);
    var v :- members(obj);
    :- CheckTag(obj, tag, typeName);
    Ok(v)
  }

  /**
   * An object whose members parse but whose `type` is a different string is
   * rejected with a mismatch naming the type, the literal and the value found.
   */
  lemma DecodeTaggedMismatch<T>(obj: Object, typeName: string, tag: string, found: string, members: Object -> Result<T>)
    requires members(obj).Ok?
    requires TypeKey in obj && obj[TypeKey] == JStr(found) && found != tag
    ensures DecodeTagged(JObj(obj), typeName, tag, members) == Err(TypeMismatch(typeName, tag, found))
  {
  }

  /** An object whose members parse but which has no `type` member fails on the missing field. */
  lemma DecodeTaggedMissingTag<T>(obj: Object, typeName: string, tag: string, members: Object -> Result<T>)
    requires members(obj).Ok? && TypeKey !in obj
    ensures DecodeTagged(JObj(obj), typeName, tag, members) == Err(MissingField(TypeKey))
  {
  }

  /** Wraps a variant's decode result into the union's type. */
  function Lift<T, U>(r: Result<T>, variant: T -> U): (u: Result<U>)
    ensures u.Ok? <==> r.Ok?
    ensures r.Ok? ==> u.value == variant(r.value)
  {
    var v :- r;
    Ok(variant(v))
  }

  // ---------------------------------------------------------------------
  // Untagged unions

  /**
   * An untagged enum's decoder, given what each variant's own decode makes of
   * the input, in declared order: the first success is the result, and when
   * every variant fails the union fails as a whole (serde discards the
   * variants' errors).
   */
  function FirstMatch<T>(attempts: seq<Result<T>>, typeName: string): (r: Result<T>)
    ensures r.Ok? <==> exists i :: 0 <= i < |attempts| && attempts[i].Ok?
    ensures r.Err? ==> r.error == NoVariantMatched(typeName)
    decreases |attempts|
  {
    if attempts == [] then Err(NoVariantMatched(typeName))
    else if attempts[0].Ok? then attempts[0]
    else
      var rest := FirstMatch(attempts[1..], typeName);
      assert forall i :: 1 <= i < |attempts| ==> attempts[i] == attempts[1..][i - 1];
      rest
  }

  /** The first succeeding variant is the one chosen, whatever the later ones would give. */
  lemma {:induction false} FirstMatchAt<T>(attempts: seq<Result<T>>, typeName: string, k: nat)
    requires k < |attempts| && attempts[k].Ok?
    requires forall i :: 0 <= i < k ==> attempts[i].Err?
    ensures FirstMatch(attempts, typeName) == attempts[k]
    decreases k
  {
    if k > 0 {
      assert attempts[0].Err?;
      var rest := attempts[1..];
      assert forall i :: 0 <= i < k - 1 ==> rest[i] == attempts[i + 1];
      FirstMatchAt(rest, typeName, k - 1);
    }
  }

  // ---------------------------------------------------------------------
  // Empty

  /** `struct Empty {}` with `#[serde(deny_unknown_fields)]`. */
  datatype Empty = Empty

  function EncodeEmpty(e: Empty): Json {
    JObj(map[])
  }

  /**
   * Only an object without members decodes to `Empty`; any member is an
   * unknown field. (serde names the first one in input order; the model, whose
   * objects have no order, carries all of them.)
   */
  function DecodeEmpty(j: Json): (r: Result<Empty>)
    ensures r.Ok? <==> j == JObj(map[])
    ensures j.JObj? && j.fields != map[] ==> r == Err(UnknownFields(j.fields.Keys))
  {
    if !j.JObj? then Err(InvalidType("struct Empty"))
    else if j.fields == map[] then Ok(Empty)
    else Err(UnknownFields(j.fields.Keys))
  }

  lemma EmptyRoundTrip(e: Empty)
    ensures EncodeEmpty(e) == JObj(map[])
    ensures DecodeEmpty(EncodeEmpty(e)) == Ok(e)
  {
  }
}
