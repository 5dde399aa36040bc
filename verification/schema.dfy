/**
 * The restricted JSON Schema an elicitation request carries: the four
 * primitive property schemas (three of them tagged by a `type` literal, the
 * number schema by a two-valued enum under the same key), their untagged
 * union, and the `object` schema that holds them.
 */
module Schemas {
  import opened Json
  import opened Codec

  // ---------------------------------------------------------------------
  // BooleanSchema (tag "boolean")

  datatype BooleanSchema = BooleanSchema(default: Option<bool>, description: Option<string>, title: Option<string>)

  function EncodeBooleanSchema(x: BooleanSchema): (j: Json)
    ensures HasTag(j, "boolean")
  {
    var obj := WithOptional(map[], "default", x.default, EncodeBool);
    var obj := WithOptional(obj, "description", x.description, EncodeString);
    Tagged(WithOptional(obj, "title", x.title, EncodeString), "boolean")
  }

  function BooleanSchemaMembers(obj: Object): Result<BooleanSchema> {
    var default :- Optional(obj, "default", DecodeBool);
    var description :- Optional(obj, "description", DecodeString);
    var title :- Optional(obj, "title", DecodeString);
    Ok(BooleanSchema(default, description, title))
  }

  function DecodeBooleanSchema(j: Json): (r: Result<BooleanSchema>)
    ensures r.Ok? ==> HasTag(j, "boolean")
  {
    DecodeTagged(j, "BooleanSchema", "boolean", BooleanSchemaMembers)
  }

  lemma BooleanSchemaRoundTrip(x: BooleanSchema)
    ensures DecodeBooleanSchema(EncodeBooleanSchema(x)) == Ok(x)
  {
    var obj := EncodeBooleanSchema(x).fields;
    OptionalRoundTrip(obj, "default", x.default, EncodeBool, DecodeBool);
    OptionalRoundTrip(obj, "description", x.description, EncodeString, DecodeString);
    OptionalRoundTrip(obj, "title", x.title, EncodeString, DecodeString);
  }

  // ---------------------------------------------------------------------
  // EnumSchema (tag "string")

  /** `enum` is the list of allowed values; `enumNames` their optional display names. */
  datatype EnumSchema = EnumSchema(description: Option<string>, values: seq<string>, enumNames: Option<seq<string>>, title: Option<string>)

  function EncodeEnumSchema(x: EnumSchema): (j: Json)
    ensures HasTag(j, "string") && "enum" in j.fields
  {
    var obj := map["enum" := EncodeStrings(x.values)];
    var obj := WithOptional(obj, "description", x.description, EncodeString);
    var obj := WithOptional(obj, "enumNames", x.enumNames, EncodeStrings);
    Tagged(WithOptional(obj, "title", x.title, EncodeString), "string")
  }

  function EnumSchemaMembers(obj: Object): Result<EnumSchema> {
    var description :- Optional(obj, "description", DecodeString);
    var values :- Required(obj, "enum", DecodeStrings);
    var enumNames :- Optional(obj, "enumNames", DecodeStrings);
    var title :- Optional(obj, "title", DecodeString);
    Ok(EnumSchema(description, values, enumNames, title))
  }

  /** Besides the `"string"` tag, an enum schema needs its `enum` member. */
  function DecodeEnumSchema(j: Json): (r: Result<EnumSchema>)
    ensures r.Ok? ==> HasTag(j, "string") && "enum" in j.fields
  {
    DecodeTagged(j, "EnumSchema", "string", EnumSchemaMembers)
  }

  lemma EnumSchemaRoundTrip(x: EnumSchema)
    ensures DecodeEnumSchema(EncodeEnumSchema(x)) == Ok(x)
  {
    var obj := EncodeEnumSchema(x).fields;
    StringsRoundTrip(x.values);
    if x.enumNames.Some? { StringsRoundTrip(x.enumNames.value); }
    OptionalRoundTrip(obj, "description", x.description, EncodeString, DecodeString);
    OptionalRoundTrip(obj, "enumNames", x.enumNames, EncodeStrings, DecodeStrings);
    OptionalRoundTrip(obj, "title", x.title, EncodeString, DecodeString);
  }

  // ---------------------------------------------------------------------
  // NumberSchema (derived; `type` is the enum NumberType)

  datatype NumberType = Number | Integer

  function EncodeNumberType(t: NumberType): Json {
    match t
    case Number() => JStr("number")
    case Integer => JStr("integer")
  }

  function DecodeNumberType(j: Json): (r: Result<NumberType>)
    ensures r.Ok? <==> j == JStr("number") || j == JStr("integer")
  {
    var s :- DecodeString(j);
    if s == "number" then Ok(NumberType.Number)
    else if s == "integer" then Ok(Integer)
    else Err(UnknownVariant(s))
  }

  lemma NumberTypeRoundTrip(t: NumberType)
    ensures DecodeNumberType(EncodeNumberType(t)) == Ok(t)
  {
  }

  /** `maximum` and `minimum` are `f64`, kept as real numbers. */
  datatype NumberSchema = NumberSchema(
    description: Option<string>,
    maximum: Option<real>,
    minimum: Option<real>,
    title: Option<string>,
    numberType: NumberType)

  function EncodeNumberSchema(x: NumberSchema): (j: Json)
    ensures j.JObj? && TypeKey in j.fields && j.fields[TypeKey] == EncodeNumberType(x.numberType)
  {
    var obj := map[TypeKey := EncodeNumberType(x.numberType)];
    var obj := WithOptional(obj, "description", x.description, EncodeString);
    var obj := WithOptional(obj, "maximum", x.maximum, EncodeFloat);
    var obj := WithOptional(obj, "minimum", x.minimum, EncodeFloat);
    JObj(WithOptional(obj, "title", x.title, EncodeString))
  }

  /** The `type` member is required and must name one of the two number types. */
  function DecodeNumberSchema(j: Json): (r: Result<NumberSchema>)
    ensures r.Ok? ==> j.JObj? && TypeKey in j.fields && (j.fields[TypeKey] == JStr("number") || j.fields[TypeKey] == JStr("integer"))
    ensures j.JObj? && TypeKey !in j.fields ==> r.Err?
  {
    var obj :- AsObject(j, "NumberSchema");
    var description :- Optional(obj, "description", DecodeString);
    var maximum :- Optional(obj, "maximum", DecodeFloat);
    var minimum :- Optional(obj, "minimum", DecodeFloat);
    var title :- Optional(obj, "title", DecodeString);
    var numberType :- Required(obj, TypeKey, DecodeNumberType);
    Ok(NumberSchema(description, maximum, minimum, title, numberType))
  }

  lemma NumberSchemaRoundTrip(x: NumberSchema)
    ensures DecodeNumberSchema(EncodeNumberSchema(x)) == Ok(x)
  {
    var obj := EncodeNumberSchema(x).fields;
    OptionalRoundTrip(obj, "description", x.description, EncodeString, DecodeString);
    OptionalRoundTrip(obj, "maximum", x.maximum, EncodeFloat, DecodeFloat);
    OptionalRoundTrip(obj, "minimum", x.minimum, EncodeFloat, DecodeFloat);
    OptionalRoundTrip(obj, "title", x.title, EncodeString, DecodeString);
    NumberTypeRoundTrip(x.numberType);
  }

  // ---------------------------------------------------------------------
  // StringSchema (tag "string")

  datatype StringSchemaFormat = Email | Uri | Date | Datetime

  function EncodeStringSchemaFormat(f: StringSchemaFormat): Json {
    match f
    case Email => JStr("email")
    case Uri => JStr("uri")
    case Date => JStr("date")
    case Datetime => JStr("date_time")
  }

  function DecodeStringSchemaFormat(j: Json): (r: Result<StringSchemaFormat>)
    ensures r.Ok? <==> j in {JStr("email"), JStr("uri"), JStr("date"), JStr("date_time")}
  {
    var s :- DecodeString(j);
    if s == "email" then Ok(Email)
    else if s == "uri" then Ok(Uri)
    else if s == "date" then Ok(Date)
    else if s == "date_time" then Ok(Datetime)
    else Err(UnknownVariant(s))
  }

  lemma StringSchemaFormatRoundTrip(f: StringSchemaFormat)
    ensures DecodeStringSchemaFormat(EncodeStringSchemaFormat(f)) == Ok(f)
  {
  }

  datatype StringSchema = StringSchema(
    description: Option<string>,
    format: Option<StringSchemaFormat>,
    maxLength: Option<int64>,
    minLength: Option<int64>,
    title: Option<string>)

  function EncodeStringSchema(x: StringSchema): (j: Json)
    ensures HasTag(j, "string") && "enum" !in j.fields
  {
    var obj := WithOptional(map[], "description", x.description, EncodeString);
    var obj := WithOptional(obj, "format", x.format, EncodeStringSchemaFormat);
    var obj := WithOptional(obj, "maxLength", x.maxLength, EncodeInt64);
    var obj := WithOptional(obj, "minLength", x.minLength, EncodeInt64);
    Tagged(WithOptional(obj, "title", x.title, EncodeString), "string")
  }

  function StringSchemaMembers(obj: Object): Result<StringSchema> {
    var description :- Optional(obj, "description", DecodeString);
    var format :- Optional(obj, "format", DecodeStringSchemaFormat);
    var maxLength :- Optional(obj, "maxLength", DecodeInt64);
    var minLength :- Optional(obj, "minLength", DecodeInt64);
    var title :- Optional(obj, "title", DecodeString);
    Ok(StringSchema(description, format, maxLength, minLength, title))
  }

  function DecodeStringSchema(j: Json): (r: Result<StringSchema>)
    ensures r.Ok? ==> HasTag(j, "string")
  {
    DecodeTagged(j, "StringSchema", "string", StringSchemaMembers)
  }

  lemma StringSchemaRoundTrip(x: StringSchema)
    ensures DecodeStringSchema(EncodeStringSchema(x)) == Ok(x)
  {
    var obj := EncodeStringSchema(x).fields;
    OptionalRoundTrip(obj, "description", x.description, EncodeString, DecodeString);
    if x.format.Some? { StringSchemaFormatRoundTrip(x.format.value); }
    OptionalRoundTrip(obj, "format", x.format, EncodeStringSchemaFormat, DecodeStringSchemaFormat);
    OptionalRoundTrip(obj, "maxLength", x.maxLength, EncodeInt64, DecodeInt64);
    OptionalRoundTrip(obj, "minLength", x.minLength, EncodeInt64, DecodeInt64);
    OptionalRoundTrip(obj, "title", x.title, EncodeString, DecodeString);
    StringSchemaMembersOk(obj, x);
  }

  lemma StringSchemaMembersOk(obj: Object, x: StringSchema)
    requires Optional(obj, "description", DecodeString) == Ok(x.description)
    requires Optional(obj, "format", DecodeStringSchemaFormat) == Ok(x.format)
    requires Optional(obj, "maxLength", DecodeInt64) == Ok(x.maxLength)
    requires Optional(obj, "minLength", DecodeInt64) == Ok(x.minLength)
    requires Optional(obj, "title", DecodeString) == Ok(x.title)
    ensures StringSchemaMembers(obj) == Ok(x)
  {
  }

  // ---------------------------------------------------------------------
  // PrimitiveSchemaDefinition (untagged: Boolean, Enum, Number, String, Empty)

  datatype PrimitiveSchemaDefinition =
    | Boolean(boolean: BooleanSchema)
    | Enum(enumSchema: EnumSchema)
    | Number(number: NumberSchema)
    | String(str: StringSchema)
    | Empty(empty: Empty)

  function DefaultPrimitiveSchemaDefinition(): PrimitiveSchemaDefinition {
    PrimitiveSchemaDefinition.Empty(Codec.Empty)
  }

  /**
   * Each variant is written as its own object with no wrapper: `Boolean` and
   * `Number` by their `type` literal, `Enum` and `String` both as `"string"`,
   * told apart by the `enum` member; only `Empty` is written as `{}`.
   */
  function EncodePrimitiveSchemaDefinition(d: PrimitiveSchemaDefinition): (j: Json)
    ensures j.JObj?
    ensures d.Empty? <==> j == JObj(map[])
    ensures d.Boolean? ==> HasTag(j, "boolean")
    ensures d.Enum? ==> HasTag(j, "string") && "enum" in j.fields
    ensures d.Number? ==> TypeKey in j.fields && j.fields[TypeKey] in {JStr("number"), JStr("integer")}
    ensures d.String? ==> HasTag(j, "string") && "enum" !in j.fields
  {
    match d
    case Boolean(x) => EncodeBooleanSchema(x)
    case Enum(x) => EncodeEnumSchema(x)
    case Number(x) => EncodeNumberSchema(x)
    case String(x) => EncodeStringSchema(x)
    case Empty(e) => EncodeEmpty(e)
  }

  function PrimitiveSchemaDefinitionAttempts(j: Json): seq<Result<PrimitiveSchemaDefinition>> {
    [ Lift(DecodeBooleanSchema(j), x => PrimitiveSchemaDefinition.Boolean(x)),
      Lift(DecodeEnumSchema(j), x => PrimitiveSchemaDefinition.Enum(x)),
      Lift(DecodeNumberSchema(j), x => PrimitiveSchemaDefinition.Number(x)),
      Lift(DecodeStringSchema(j), x => PrimitiveSchemaDefinition.String(x)),
      Lift(DecodeEmpty(j), e => PrimitiveSchemaDefinition.Empty(e)) ]
  }

  function DecodePrimitiveSchemaDefinition(j: Json): Result<PrimitiveSchemaDefinition> {
    FirstMatch(PrimitiveSchemaDefinitionAttempts(j), "PrimitiveSchemaDefinition")
  }

  /** Whatever decodes as `BooleanSchema` is the `Boolean` variant, the first one tried. */
  lemma PrimitiveSchemaPicksBoolean(j: Json, x: BooleanSchema)
    requires DecodeBooleanSchema(j) == Ok(x)
    ensures DecodePrimitiveSchemaDefinition(j) == Ok(PrimitiveSchemaDefinition.Boolean(x))
  {
    FirstMatchAt(PrimitiveSchemaDefinitionAttempts(j), "PrimitiveSchemaDefinition", 0);
  }

  /**
   * Whatever decodes as `EnumSchema` is the `Enum` variant: `Boolean`, tried
   * before it, checks the literal `"boolean"`, and an enum schema's tag is `"string"`.
   */
  lemma PrimitiveSchemaPicksEnum(j: Json, x: EnumSchema)
    requires DecodeEnumSchema(j) == Ok(x)
    ensures DecodePrimitiveSchemaDefinition(j) == Ok(PrimitiveSchemaDefinition.Enum(x))
  {
    FirstMatchAt(PrimitiveSchemaDefinitionAttempts(j), "PrimitiveSchemaDefinition", 1);
  }

  /**
   * Whatever decodes as `NumberSchema` is the `Number` variant: its `type` is
   * `"number"` or `"integer"`, which neither `"boolean"` nor `"string"` is.
   */
  lemma PrimitiveSchemaPicksNumber(j: Json, x: NumberSchema)
    requires DecodeNumberSchema(j) == Ok(x)
    ensures DecodePrimitiveSchemaDefinition(j) == Ok(PrimitiveSchemaDefinition.Number(x))
  {
    FirstMatchAt(PrimitiveSchemaDefinitionAttempts(j), "PrimitiveSchemaDefinition", 2);
  }

  /**
   * A string schema is the `String` variant only when `Enum`, which shares its
   * `"string"` tag, fails: for instance because the object has no `enum` member.
   */
  lemma PrimitiveSchemaPicksString(j: Json, x: StringSchema)
    requires DecodeStringSchema(j) == Ok(x) && DecodeEnumSchema(j).Err?
    ensures DecodePrimitiveSchemaDefinition(j) == Ok(PrimitiveSchemaDefinition.String(x))
  {
    FirstMatchAt(PrimitiveSchemaDefinitionAttempts(j), "PrimitiveSchemaDefinition", 3);
  }

  lemma PrimitiveSchemaPicksEmpty(j: Json)
    requires j == JObj(map[])
    ensures DecodePrimitiveSchemaDefinition(j) == Ok(DefaultPrimitiveSchemaDefinition())
  {
    var cs := PrimitiveSchemaDefinitionAttempts(j);
    assert cs[4] == Ok(DefaultPrimitiveSchemaDefinition());
    FirstMatchAt(cs, "PrimitiveSchemaDefinition", 4);
  }

  /**
   * Every variant comes back as itself; a string schema does because its
   * encoding has no `enum` member, so the `Enum` variant misses a required field.
   */
  lemma PrimitiveSchemaDefinitionRoundTrip(d: PrimitiveSchemaDefinition)
    ensures DecodePrimitiveSchemaDefinition(EncodePrimitiveSchemaDefinition(d)) == Ok(d)
  {
    var j := EncodePrimitiveSchemaDefinition(d);
    match d
    case Boolean(x) =>
      BooleanSchemaRoundTrip(x);
      PrimitiveSchemaPicksBoolean(j, x);
    case Enum(x) =>
      EnumSchemaRoundTrip(x);
      PrimitiveSchemaPicksEnum(j, x);
    case Number(x) =>
      NumberSchemaRoundTrip(x);
      PrimitiveSchemaPicksNumber(j, x);
    case String(x) =>
      StringSchemaRoundTrip(x);
      PrimitiveSchemaPicksString(j, x);
    case Empty(e) =>
      EmptyRoundTrip(e);
      PrimitiveSchemaPicksEmpty(j);
  }

  /**
   * `{"type":"string","enum":[..]}` is read as an enum schema, never as a
   * string schema, although it would decode as either: `Enum` is tried first.
   */
  lemma StringTaggedWithEnumIsEnum(values: seq<string>)
    ensures DecodePrimitiveSchemaDefinition(JObj(map[TypeKey := JStr("string"), "enum" := EncodeStrings(values)]))
         == Ok(PrimitiveSchemaDefinition.Enum(EnumSchema(None, values, None, None)))
    ensures DecodeStringSchema(JObj(map[TypeKey := JStr("string"), "enum" := EncodeStrings(values)]))
         == Ok(StringSchema(None, None, None, None, None))
  {
    var j := JObj(map[TypeKey := JStr("string"), "enum" := EncodeStrings(values)]);
    StringsRoundTrip(values);
    assert EnumSchemaMembers(j.fields) == Ok(EnumSchema(None, values, None, None));
    PrimitiveSchemaPicksEnum(j, EnumSchema(None, values, None, None));
  }

  // ---------------------------------------------------------------------
  // Schema (tag "object")

  /** The requested schema: a flat map of primitive property schemas, and which of them are required. */
  datatype Schema = Schema(properties: map<string, PrimitiveSchemaDefinition>, required: Option<seq<string>>)

  function DefaultSchema(): Schema { Schema(map[], None) }

  function EncodeSchema(x: Schema): (j: Json)
    ensures HasTag(j, "object") && "properties" in j.fields
  {
    var obj := map["properties" := EncodeMap(x.properties, EncodePrimitiveSchemaDefinition)];
    Tagged(WithOptional(obj, "required", x.required, EncodeStrings), "object")
  }

  function SchemaMembers(obj: Object): Result<Schema> {
    var properties :- Required(obj, "properties", j => DecodeMap(j, DecodePrimitiveSchemaDefinition));
    var required :- Optional(obj, "required", DecodeStrings);
    Ok(Schema(properties, required))
  }

  function DecodeSchema(j: Json): (r: Result<Schema>)
    ensures r.Ok? ==> HasTag(j, "object") && "properties" in j.fields
  {
    DecodeTagged(j, "Schema", "object", SchemaMembers)
  }

  lemma SchemaRoundTrip(x: Schema)
    ensures DecodeSchema(EncodeSchema(x)) == Ok(x)
  {
    var obj := EncodeSchema(x).fields;
    forall k | k in x.properties
      ensures DecodePrimitiveSchemaDefinition(EncodePrimitiveSchemaDefinition(x.properties[k])) == Ok(x.properties[k])
    {
      PrimitiveSchemaDefinitionRoundTrip(x.properties[k]);
    }
    MapRoundTrip(x.properties, EncodePrimitiveSchemaDefinition, DecodePrimitiveSchemaDefinition);
    if x.required.Some? { StringsRoundTrip(x.required.value); }
    OptionalRoundTrip(obj, "required", x.required, EncodeStrings, DecodeStrings);
  }
}
