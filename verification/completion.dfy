/**
 * Argument completion: the request names an argument, its current value and
 * the prompt or resource template it belongs to; the result lists candidate
 * values.
 */
module Completion {
  import opened Json
  import opened Codec
  import opened RequestContext
  import opened References

  datatype CompleteRequestParamArgument = CompleteRequestParamArgument(name: string, value: string)

  function EncodeArgument(x: CompleteRequestParamArgument): Json {
    JObj(map["name" := JStr(x.name), "value" := JStr(x.value)])
  }

  /** Both members are required strings. */
  function DecodeArgument(j: Json): (r: Result<CompleteRequestParamArgument>)
    ensures r.Ok? <==> j.JObj? && "name" in j.fields && j.fields["name"].JStr? && "value" in j.fields && j.fields["value"].JStr?
  {
    var obj :- AsObject(j, "CompleteRequestParamArgument");
    var name :- Required(obj, "name", DecodeString);
    var value :- Required(obj, "value", DecodeString);
    Ok(CompleteRequestParamArgument(name, value))
  }

  lemma ArgumentRoundTrip(x: CompleteRequestParamArgument)
    ensures DecodeArgument(EncodeArgument(x)) == Ok(x)
  {
  }

  /** Arguments already resolved, by name. */
  datatype CompleteRequestParamContext = CompleteRequestParamContext(arguments: Option<map<string, string>>)

  function EncodeCompletionContext(x: CompleteRequestParamContext): (j: Json)
    ensures j.JObj? && ("arguments" in j.fields <==> x.arguments.Some?)
  {
    JObj(WithOptional(map[], "arguments", x.arguments, EncodeStringMap))
  }

  /**
   * Accepts any object whose `arguments`, when present and not `null`, is a
   * map of strings; without it the context holds no arguments.
   */
  function DecodeCompletionContext(j: Json): (r: Result<CompleteRequestParamContext>)
    ensures r.Ok? <==> j.JObj? && OptionalAccepts(j.fields, "arguments", DecodeStringMap)
    ensures r.Ok? ==> (r.value.arguments.None? <==> "arguments" !in j.fields || j.fields["arguments"] == JNull)
    ensures r.Ok? && r.value.arguments.Some? ==> DecodeStringMap(j.fields["arguments"]) == Ok(r.value.arguments.value)
  {
    var obj :- AsObject(j, "CompleteRequestParamContext");
    var arguments :- Optional(obj, "arguments", DecodeStringMap);
    Ok(CompleteRequestParamContext(arguments))
  }

  lemma CompletionContextRoundTrip(x: CompleteRequestParamContext)
    ensures DecodeCompletionContext(EncodeCompletionContext(x)) == Ok(x)
  {
    if x.arguments.Some? { MapRoundTrip(x.arguments.value, EncodeString, DecodeString); }
    OptionalRoundTrip(EncodeCompletionContext(x).fields, "arguments", x.arguments, EncodeStringMap, DecodeStringMap);
  }

  /** `ref` is written under its plain name. */
  datatype CompleteRequestParam = CompleteRequestParam(argument: CompleteRequestParamArgument, context: Option<CompleteRequestParamContext>, reference: Reference)

  function EncodeCompleteRequestParam(x: CompleteRequestParam): (j: Json)
    ensures j.JObj? && "argument" in j.fields && "ref" in j.fields
  {
    var obj := map["argument" := EncodeArgument(x.argument), "ref" := EncodeReference(x.reference)];
    JObj(WithOptional(obj, "context", x.context, EncodeCompletionContext))
  }

  /** `ref` is required: the union's Rust default (`Empty`) is not used for a missing key. */
  function DecodeCompleteRequestParam(j: Json): (r: Result<CompleteRequestParam>)
    ensures j.JObj? && "ref" !in j.fields ==> r.Err?
    ensures r.Ok? ==> j.JObj? && "ref" in j.fields && DecodeReference(j.fields["ref"]) == Ok(r.value.reference)
  {
    var obj :- AsObject(j, "CompleteRequestParam");
    var argument :- Required(obj, "argument", DecodeArgument);
    var context :- Optional(obj, "context", DecodeCompletionContext);
    var reference :- Required(obj, "ref", DecodeReference);
    Ok(CompleteRequestParam(argument, context, reference))
  }

  lemma CompleteRequestParamRoundTrip(x: CompleteRequestParam)
    ensures DecodeCompleteRequestParam(EncodeCompleteRequestParam(x)) == Ok(x)
  {
    if x.context.Some? { CompletionContextRoundTrip(x.context.value); }
    OptionalRoundTrip(EncodeCompleteRequestParam(x).fields, "context", x.context, EncodeCompletionContext, DecodeCompletionContext);
    ArgumentRoundTrip(x.argument);
    ReferenceRoundTrip(x.reference);
  }

  datatype CompleteRequest = CompleteRequest(context: PluginRequestContext, request: CompleteRequestParam)

  function EncodeCompleteRequest(x: CompleteRequest): Json {
    JObj(map["context" := EncodePluginRequestContext(x.context), "request" := EncodeCompleteRequestParam(x.request)])
  }

  function DecodeCompleteRequest(j: Json): (r: Result<CompleteRequest>)
    ensures r.Ok? ==> j.JObj? && "context" in j.fields && "request" in j.fields
  {
    var obj :- AsObject(j, "CompleteRequest");
    var context :- Required(obj, "context", DecodePluginRequestContext);
    var request :- Required(obj, "request", DecodeCompleteRequestParam);
    Ok(CompleteRequest(context, request))
  }

  lemma CompleteRequestRoundTrip(x: CompleteRequest)
    ensures DecodeCompleteRequest(EncodeCompleteRequest(x)) == Ok(x)
  {
    PluginRequestContextRoundTrip(x.context);
    CompleteRequestParamRoundTrip(x.request);
  }

  // ---------------------------------------------------------------------
  // CompleteResult

  /** At most 100 values is a documented expectation only: nothing checks it. */
  datatype CompleteResultCompletion = CompleteResultCompletion(hasMore: Option<bool>, total: Option<int64>, values: seq<string>)

  function EncodeCompletion(x: CompleteResultCompletion): (j: Json)
    ensures j.JObj? && "values" in j.fields && j.fields["values"] == EncodeStrings(x.values)
  {
    var obj := WithOptional(map["values" := EncodeStrings(x.values)], "hasMore", x.hasMore, EncodeBool);
    JObj(WithOptional(obj, "total", x.total, EncodeInt64))
  }

  /** Any number of values is accepted; a `total` must fit in an `i64`. */
  function DecodeCompletion(j: Json): (r: Result<CompleteResultCompletion>)
    ensures r.Ok? ==> j.JObj? && "values" in j.fields && DecodeStrings(j.fields["values"]) == Ok(r.value.values)
    ensures r.Ok? && r.value.total.Some? ==> "total" in j.fields && j.fields["total"] == JInt(r.value.total.value as int)
  {
    var obj :- AsObject(j, "CompleteResultCompletion");
    var hasMore :- Optional(obj, "hasMore", DecodeBool);
    var total :- Optional(obj, "total", DecodeInt64);
    var values :- Required(obj, "values", DecodeStrings);
    Ok(CompleteResultCompletion(hasMore, total, values))
  }

  lemma CompletionRoundTrip(x: CompleteResultCompletion)
    ensures DecodeCompletion(EncodeCompletion(x)) == Ok(x)
  {
    var obj := EncodeCompletion(x).fields;
    StringsRoundTrip(x.values);
    OptionalRoundTrip(obj, "hasMore", x.hasMore, EncodeBool, DecodeBool);
    OptionalRoundTrip(obj, "total", x.total, EncodeInt64, DecodeInt64);
  }

  datatype CompleteResult = CompleteResult(completion: CompleteResultCompletion)

  function EncodeCompleteResult(x: CompleteResult): Json {
    JObj(map["completion" := EncodeCompletion(x.completion)])
  }

  function DecodeCompleteResult(j: Json): (r: Result<CompleteResult>)
    ensures r.Ok? ==> j.JObj? && "completion" in j.fields && DecodeCompletion(j.fields["completion"]) == Ok(r.value.completion)
  {
    var obj :- AsObject(j, "CompleteResult");
    var completion :- Required(obj, "completion", DecodeCompletion);
    Ok(CompleteResult(completion))
  }

  lemma CompleteResultRoundTrip(x: CompleteResult)
    ensures DecodeCompleteResult(EncodeCompleteResult(x)) == Ok(x)
  {
    CompletionRoundTrip(x.completion);
  }
}
