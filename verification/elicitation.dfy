/**
 * Elicitation: the request a plugin sends to ask the user for input (an enum
 * internally tagged by `mode`, flattened next to an optional `timeout`), the
 * user's answer, and the notification that closes a URL elicitation.
 */
module Elicitation {
  import opened Json
  import opened Codec
  import opened Schemas

  // ---------------------------------------------------------------------
  // ElicitationRequestParam (`#[serde(tag = "mode")]`)

  datatype ElicitationRequestParam =
    | Form(message: string, requestedSchema: Schema)
    | Url(elicitationId: string, message: string, url: string)

  /** The Rust `Default`: a form with an empty message and the default schema. */
  function DefaultElicitationRequestParam(): ElicitationRequestParam { Form("", DefaultSchema()) }

  const ModeKey: string := "mode"

  /** The variant's own members; the tag is added beside them. */
  function ElicitationVariantMembers(p: ElicitationRequestParam): (obj: Object)
    ensures ModeKey !in obj
  {
    match p
    case Form(message, schema) => map["message" := JStr(message), "requestedSchema" := EncodeSchema(schema)]
    case Url(id, message, url) => map["elicitationId" := JStr(id), "message" := JStr(message), "url" := JStr(url)]
  }

  /** An internally tagged variant is written as its members plus `mode` holding the variant's wire name. */
  function EncodeElicitationRequestParam(p: ElicitationRequestParam): (j: Json)
    ensures j.JObj? && ModeKey in j.fields
    ensures j.fields[ModeKey] == JStr(if p.Form? then "form" else "url")
  {
    JObj(ElicitationVariantMembers(p)[ModeKey := JStr(if p.Form? then "form" else "url")])
  }

  function FormMembers(obj: Object): Result<ElicitationRequestParam> {
    var message :- Required(obj, "message", DecodeString);
    var schema :- Required(obj, "requestedSchema", DecodeSchema);
    Ok(Form(message, schema))
  }

  function UrlMembers(obj: Object): Result<ElicitationRequestParam> {
    var id :- Required(obj, "elicitationId", DecodeString);
    var message :- Required(obj, "message", DecodeString);
    var url :- Required(obj, "url", DecodeString);
    Ok(Url(id, message, url))
  }

  /**
   * The tag is read first: a missing `mode` is a missing field and an unknown
   * one an unknown variant; the named variant then reads its members from
   * the rest of the object.
   */
  function DecodeElicitationRequestParam(j: Json): (r: Result<ElicitationRequestParam>)
    ensures j.JObj? && ModeKey !in j.fields ==> r == Err(MissingField(ModeKey))
    ensures j.JObj? && ModeKey in j.fields && j.fields[ModeKey].JStr? && j.fields[ModeKey].s !in {"form", "url"} ==>
              r == Err(UnknownVariant(j.fields[ModeKey].s))
    ensures r.Ok? ==> j.JObj? && ModeKey in j.fields && j.fields[ModeKey] == JStr(if r.value.Form? then "form" else "url")
  {
    var obj :- AsObject(j, "ElicitationRequestParam");
    if ModeKey !in obj then Err(MissingField(ModeKey))
    else
      var mode :- DecodeString(obj[ModeKey]);
      var rest := obj - {ModeKey};
      if mode == "form" then FormMembers(rest)
      else if mode == "url" then UrlMembers(rest)
      else Err(UnknownVariant(mode))
  }

  lemma ElicitationRequestParamRoundTrip(p: ElicitationRequestParam)
    ensures DecodeElicitationRequestParam(EncodeElicitationRequestParam(p)) == Ok(p)
  {
    var rest := EncodeElicitationRequestParam(p).fields - {ModeKey};
    assert rest == ElicitationVariantMembers(p);
    if p.Form? { SchemaRoundTrip(p.requestedSchema); }
  }

  /** A form-shaped object tagged `url` is read as a URL request, and fails because it lacks the URL members. */
  lemma ModeDecidesVariant(message: string, schema: Schema)
    ensures DecodeElicitationRequestParam(JObj(map[ModeKey := JStr("url"), "message" := JStr(message), "requestedSchema" := EncodeSchema(schema)]))
         == Err(MissingField("elicitationId"))
  {
    var obj := map[ModeKey := JStr("url"), "message" := JStr(message), "requestedSchema" := EncodeSchema(schema)];
    assert "elicitationId" !in obj - {ModeKey};
  }

  // ---------------------------------------------------------------------
  // ElicitationRequestParamWithTimeout (`#[serde(flatten)] inner` plus `timeout`)

  datatype ElicitationRequestParamWithTimeout = WithTimeout(inner: ElicitationRequestParam, timeout: Option<int64>)

  const TimeoutKey: string := "timeout"

  /** The inner request's members and tag, flattened into one object with the optional `timeout`. */
  function EncodeWithTimeout(x: ElicitationRequestParamWithTimeout): (j: Json)
    ensures j.JObj? && (TimeoutKey in j.fields <==> x.timeout.Some?)
    ensures j.fields - {TimeoutKey} == EncodeElicitationRequestParam(x.inner).fields
  {
    var inner := EncodeElicitationRequestParam(x.inner).fields;
    assert TimeoutKey !in inner;
    JObj(WithOptional(inner, TimeoutKey, x.timeout, EncodeInt64))
  }

  /**
   * A flattened field is read from serde's buffered copy of the object, and
   * there a variant may also be named by its index as an unsigned integer:
   * `0` is `form` and `1` is `url`, in declaration order. Every other member,
   * and a tag of any other kind, is left as it is.
   */
  function VariantIndexAsName(obj: Object): (r: Object)
    ensures r.Keys == obj.Keys
    ensures forall k | k in obj && k != ModeKey :: r[k] == obj[k]
    ensures ModeKey in obj && obj[ModeKey] == JInt(0) ==> r[ModeKey] == JStr("form")
    ensures ModeKey in obj && obj[ModeKey] == JInt(1) ==> r[ModeKey] == JStr("url")
    ensures ModeKey in obj && obj[ModeKey] != JInt(0) && obj[ModeKey] != JInt(1) ==> r[ModeKey] == obj[ModeKey]
  {
    if ModeKey in obj && obj[ModeKey] == JInt(0) then obj[ModeKey := JStr("form")]
    else if ModeKey in obj && obj[ModeKey] == JInt(1) then obj[ModeKey := JStr("url")]
    else obj
  }

  /** On the buffered path a variant is named by its string or by its index. */
  predicate FlattenedTagNames(tag: Json, p: ElicitationRequestParam) {
    if p.Form? then tag in {JStr("form"), JInt(0)} else tag in {JStr("url"), JInt(1)}
  }

  /**
   * `timeout` is taken by the outer struct; the inner request is read from
   * every other member, through the buffered copy, so an integer tag naming a
   * variant index is accepted here although it is not on the direct path.
   */
  function DecodeWithTimeout(j: Json): (r: Result<ElicitationRequestParamWithTimeout>)
    ensures r.Ok? ==> j.JObj? && DecodeElicitationRequestParam(JObj(VariantIndexAsName(j.fields - {TimeoutKey}))) == Ok(r.value.inner)
    ensures r.Ok? ==> j.JObj? && ModeKey in j.fields && FlattenedTagNames(j.fields[ModeKey], r.value.inner)
  {
    var obj :- AsObject(j, "ElicitationRequestParamWithTimeout");
    var timeout :- Optional(obj, TimeoutKey, DecodeInt64);
    var inner :- DecodeElicitationRequestParam(JObj(VariantIndexAsName(obj - {TimeoutKey})));
    Ok(WithTimeout(inner, timeout))
  }

  /**
   * A form request tagged with the index `0` is refused on its own, where the
   * tag must be a string, and accepted as `Form` inside the timeout wrapper.
   */
  lemma IndexTagOnlyWhenFlattened(message: string, schema: Schema)
    ensures var j := JObj(map[ModeKey := JInt(0), "message" := JStr(message), "requestedSchema" := EncodeSchema(schema)]);
      && DecodeElicitationRequestParam(j) == Err(InvalidType("a string"))
      && DecodeWithTimeout(j) == Ok(WithTimeout(Form(message, schema), None))
  {
    var obj := map[ModeKey := JInt(0), "message" := JStr(message), "requestedSchema" := EncodeSchema(schema)];
    var named := VariantIndexAsName(obj - {TimeoutKey});
    assert named == obj[ModeKey := JStr("form")];
    assert named - {ModeKey} == map["message" := JStr(message), "requestedSchema" := EncodeSchema(schema)];
    SchemaRoundTrip(schema);
  }

  lemma WithTimeoutRoundTrip(x: ElicitationRequestParamWithTimeout)
    ensures DecodeWithTimeout(EncodeWithTimeout(x)) == Ok(x)
  {
    var obj := EncodeWithTimeout(x).fields;
    OptionalRoundTrip(obj, TimeoutKey, x.timeout, EncodeInt64, DecodeInt64);
    ElicitationRequestParamRoundTrip(x.inner);
  }

  // ---------------------------------------------------------------------
  // ElicitationResult

  datatype ElicitationResultAction = Accept | Decline | Cancel

  function EncodeAction(a: ElicitationResultAction): Json {
    match a
    case Accept => JStr("accept")
    case Decline => JStr("decline")
    case Cancel => JStr("cancel")
  }

  function DecodeAction(j: Json): (r: Result<ElicitationResultAction>)
    ensures r.Ok? <==> j in {JStr("accept"), JStr("decline"), JStr("cancel")}
  {
    var s :- DecodeString(j);
    if s == "accept" then Ok(Accept)
    else if s == "decline" then Ok(Decline)
    else if s == "cancel" then Ok(Cancel)
    else Err(UnknownVariant(s))
  }

  lemma ActionRoundTrip(a: ElicitationResultAction)
    ensures DecodeAction(EncodeAction(a)) == Ok(a)
  {
  }

  /** A `serde_json::Number`: an integer or a floating-point value, kept apart as the wire keeps them. */
  datatype JsonNumber = IntNumber(i: int) | FloatNumber(f: real)

  function EncodeNumber(n: JsonNumber): Json {
    match n
    case IntNumber(i) => JInt(i)
    case FloatNumber(f) => JFloat(f)
  }

  function DecodeNumber(j: Json): (r: Result<JsonNumber>)
    ensures r.Ok? <==> j.JInt? || j.JFloat?
  {
    if j.JInt? then Ok(IntNumber(j.i))
    else if j.JFloat? then Ok(FloatNumber(j.f))
    else Err(InvalidType("a number"))
  }

  /** `#[serde(untagged)] enum ElicitationResultContentValue { String, Number, Bool }`. */
  datatype ElicitationResultContentValue = String(s: string) | Number(n: JsonNumber) | Bool(b: bool)

  function EncodeContentValue(v: ElicitationResultContentValue): Json {
    match v
    case String(s) => JStr(s)
    case Number(n) => EncodeNumber(n)
    case Bool(b) => JBool(b)
  }

  function ContentValueAttempts(j: Json): seq<Result<ElicitationResultContentValue>> {
    [ Lift(DecodeString(j), s => ElicitationResultContentValue.String(s)),
      Lift(DecodeNumber(j), n => ElicitationResultContentValue.Number(n)),
      Lift(DecodeBool(j), b => ElicitationResultContentValue.Bool(b)) ]
  }

  /** Only strings, numbers and booleans are answers; `null`, arrays and objects match no variant. */
  function DecodeContentValue(j: Json): (r: Result<ElicitationResultContentValue>)
    ensures r.Ok? <==> j.JStr? || j.JInt? || j.JFloat? || j.JBool?
    ensures r.Err? ==> r.error == NoVariantMatched("ElicitationResultContentValue")
  {
    var cs := ContentValueAttempts(j);
    assert j.JStr? ==> cs[0].Ok?;
    assert j.JInt? || j.JFloat? ==> cs[1].Ok?;
    assert j.JBool? ==> cs[2].Ok?;
    FirstMatch(cs, "ElicitationResultContentValue")
  }

  lemma ContentValueRoundTrip(v: ElicitationResultContentValue)
    ensures DecodeContentValue(EncodeContentValue(v)) == Ok(v)
  {
    var cs := ContentValueAttempts(EncodeContentValue(v));
    match v
    case String(_) => FirstMatchAt(cs, "ElicitationResultContentValue", 0);
    case Number(_) => FirstMatchAt(cs, "ElicitationResultContentValue", 1);
    case Bool(_) => FirstMatchAt(cs, "ElicitationResultContentValue", 2);
  }

  datatype ElicitationResult = ElicitationResult(action: ElicitationResultAction, content: Option<map<string, ElicitationResultContentValue>>)

  function EncodeContentMap(m: map<string, ElicitationResultContentValue>): Json { EncodeMap(m, EncodeContentValue) }

  function DecodeContentMap(j: Json): Result<map<string, ElicitationResultContentValue>> { DecodeMap(j, DecodeContentValue) }

  function EncodeElicitationResult(x: ElicitationResult): (j: Json)
    ensures j.JObj? && "action" in j.fields && ("content" in j.fields <==> x.content.Some?)
  {
    JObj(WithOptional(map["action" := EncodeAction(x.action)], "content", x.content, EncodeContentMap))
  }

  /** `action` is required: the enum's Rust default does not apply on decode. */
  function DecodeElicitationResult(j: Json): (r: Result<ElicitationResult>)
    ensures j.JObj? && "action" !in j.fields ==> r == Err(MissingField("action"))
  {
    var obj :- AsObject(j, "ElicitationResult");
    var action :- Required(obj, "action", DecodeAction);
    var content :- Optional(obj, "content", DecodeContentMap);
    Ok(ElicitationResult(action, content))
  }

  lemma ElicitationResultRoundTrip(x: ElicitationResult)
    ensures DecodeElicitationResult(EncodeElicitationResult(x)) == Ok(x)
  {
    var obj := EncodeElicitationResult(x).fields;
    if x.content.Some? {
      var m := x.content.value;
      forall k | k in m ensures DecodeContentValue(EncodeContentValue(m[k])) == Ok(m[k]) {
        ContentValueRoundTrip(m[k]);
      }
      MapRoundTrip(m, EncodeContentValue, DecodeContentValue);
    }
    OptionalRoundTrip(obj, "content", x.content, EncodeContentMap, DecodeContentMap);
    ActionRoundTrip(x.action);
  }

  // ---------------------------------------------------------------------
  // ElicitationResponseNotificationParam

  datatype ElicitationResponseNotificationParam = ElicitationResponseNotificationParam(elicitationId: string)

  function EncodeElicitationResponse(x: ElicitationResponseNotificationParam): Json {
    JObj(map["elicitationId" := JStr(x.elicitationId)])
  }

  function DecodeElicitationResponse(j: Json): (r: Result<ElicitationResponseNotificationParam>)
    ensures r.Ok? <==> j.JObj? && "elicitationId" in j.fields && j.fields["elicitationId"].JStr?
  {
    var obj :- AsObject(j, "ElicitationResponseNotificationParam");
    var id :- Required(obj, "elicitationId", DecodeString);
    Ok(ElicitationResponseNotificationParam(id))
  }

  lemma ElicitationResponseRoundTrip(x: ElicitationResponseNotificationParam)
    ensures DecodeElicitationResponse(EncodeElicitationResponse(x)) == Ok(x)
  {
  }
}
