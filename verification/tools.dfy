/**
 * Tools: their descriptions, the call request and its result, the listing,
 * and the tool choice a sampling request may carry. `inputSchema` and
 * `outputSchema` are JSON Schema documents, kept as opaque JSON values that
 * are booleans or objects.
 */
module Tools {
  import opened Json
  import opened Codec
  import opened Content
  import opened RequestContext

  // ---------------------------------------------------------------------
  // ToolAnnotations and Tool

  datatype ToolAnnotations = ToolAnnotations(
    destructiveHint: Option<bool>,
    idempotentHint: Option<bool>,
    openWorldHint: Option<bool>,
    readOnlyHint: Option<bool>,
    title: Option<string>)

  /** Each hint and the title is written exactly when it holds a value. */
  function EncodeToolAnnotations(x: ToolAnnotations): (j: Json)
    ensures j.JObj?
    ensures "destructiveHint" in j.fields <==> x.destructiveHint.Some?
    ensures "idempotentHint" in j.fields <==> x.idempotentHint.Some?
    ensures "openWorldHint" in j.fields <==> x.openWorldHint.Some?
    ensures "readOnlyHint" in j.fields <==> x.readOnlyHint.Some?
    ensures "title" in j.fields <==> x.title.Some?
    ensures j.fields.Keys <= {"destructiveHint", "idempotentHint", "openWorldHint", "readOnlyHint", "title"}
  {
    var obj := WithOptional(map[], "destructiveHint", x.destructiveHint, EncodeBool);
    var obj := WithOptional(obj, "idempotentHint", x.idempotentHint, EncodeBool);
    var obj := WithOptional(obj, "openWorldHint", x.openWorldHint, EncodeBool);
    var obj := WithOptional(obj, "readOnlyHint", x.readOnlyHint, EncodeBool);
    JObj(WithOptional(obj, "title", x.title, EncodeString))
  }

  /**
   * Every member is optional, so exactly the objects whose present, non-`null`
   * hints are booleans and whose title is a string decode; a hint is `None`
   * exactly when its key is missing or `null`.
   */
  function DecodeToolAnnotations(j: Json): (r: Result<ToolAnnotations>)
    ensures r.Ok? <==> (
      && j.JObj?
      && OptionalAccepts(j.fields, "destructiveHint", DecodeBool)
      && OptionalAccepts(j.fields, "idempotentHint", DecodeBool)
      && OptionalAccepts(j.fields, "openWorldHint", DecodeBool)
      && OptionalAccepts(j.fields, "readOnlyHint", DecodeBool)
      && OptionalAccepts(j.fields, "title", DecodeString))
    ensures r.Ok? ==> (r.value.destructiveHint.None? <==> "destructiveHint" !in j.fields || j.fields["destructiveHint"] == JNull)
    ensures r.Ok? ==> (r.value.idempotentHint.None? <==> "idempotentHint" !in j.fields || j.fields["idempotentHint"] == JNull)
    ensures r.Ok? ==> (r.value.openWorldHint.None? <==> "openWorldHint" !in j.fields || j.fields["openWorldHint"] == JNull)
    ensures r.Ok? ==> (r.value.readOnlyHint.None? <==> "readOnlyHint" !in j.fields || j.fields["readOnlyHint"] == JNull)
    ensures r.Ok? ==> (r.value.title.None? <==> "title" !in j.fields || j.fields["title"] == JNull)
    ensures j == JObj(map[]) ==> r == Ok(ToolAnnotations(None, None, None, None, None))
  {
    var obj :- AsObject(j, "ToolAnnotations");
    var destructiveHint :- Optional(obj, "destructiveHint", DecodeBool);
    var idempotentHint :- Optional(obj, "idempotentHint", DecodeBool);
    var openWorldHint :- Optional(obj, "openWorldHint", DecodeBool);
    var readOnlyHint :- Optional(obj, "readOnlyHint", DecodeBool);
    var title :- Optional(obj, "title", DecodeString);
    Ok(ToolAnnotations(destructiveHint, idempotentHint, openWorldHint, readOnlyHint, title))
  }

  lemma ToolAnnotationsRoundTrip(x: ToolAnnotations)
    ensures DecodeToolAnnotations(EncodeToolAnnotations(x)) == Ok(x)
  {
    var obj := EncodeToolAnnotations(x).fields;
    OptionalRoundTrip(obj, "destructiveHint", x.destructiveHint, EncodeBool, DecodeBool);
    OptionalRoundTrip(obj, "idempotentHint", x.idempotentHint, EncodeBool, DecodeBool);
    OptionalRoundTrip(obj, "openWorldHint", x.openWorldHint, EncodeBool, DecodeBool);
    OptionalRoundTrip(obj, "readOnlyHint", x.readOnlyHint, EncodeBool, DecodeBool);
    OptionalRoundTrip(obj, "title", x.title, EncodeString, DecodeString);
  }

  /** A JSON Schema document is a boolean or an object; no other JSON value deserializes as one. */
  type JsonSchema = j: Json | j.JBool? || j.JObj? witness JBool(true)

  function DecodeJsonSchema(j: Json): (r: Result<JsonSchema>)
    ensures r.Ok? <==> j.JBool? || j.JObj?
    ensures r.Ok? ==> r.value == j
  {
    if j.JBool? || j.JObj? then Ok(j) else Err(InvalidType("a JSON schema"))
  }

  /** A schema is written as the JSON value it is. */
  function EncodeJsonSchema(s: JsonSchema): Json { s }

  /** A schema is never `null`, so an optional schema is never confused with a missing one. */
  lemma JsonSchemaRoundTrip(s: JsonSchema)
    ensures EncodeJsonSchema(s) != JNull
    ensures DecodeJsonSchema(EncodeJsonSchema(s)) == Ok(s)
  {
  }

  datatype Tool = Tool(
    annotations: Option<ToolAnnotations>,
    description: Option<string>,
    inputSchema: JsonSchema,
    name: string,
    outputSchema: Option<JsonSchema>,
    title: Option<string>)

  function EncodeTool(x: Tool): (j: Json)
    ensures j.JObj? && "inputSchema" in j.fields && "name" in j.fields
    ensures "outputSchema" in j.fields <==> x.outputSchema.Some?
  {
    var obj := map["inputSchema" := EncodeJsonSchema(x.inputSchema), "name" := JStr(x.name)];
    var obj := WithOptional(obj, "annotations", x.annotations, EncodeToolAnnotations);
    var obj := WithOptional(obj, "description", x.description, EncodeString);
    var obj := WithOptional(obj, "outputSchema", x.outputSchema, EncodeJsonSchema);
    JObj(WithOptional(obj, "title", x.title, EncodeString))
  }

  /** `inputSchema` and `name` are required, and both schemas must be booleans or objects. */
  function DecodeTool(j: Json): (r: Result<Tool>)
    ensures r.Ok? ==> j.JObj? && "inputSchema" in j.fields && "name" in j.fields
    ensures r.Ok? ==> r.value.inputSchema == j.fields["inputSchema"]
    ensures j.JObj? && "inputSchema" in j.fields && !(j.fields["inputSchema"].JBool? || j.fields["inputSchema"].JObj?) ==> r.Err?
  {
    var obj :- AsObject(j, "Tool");
    var annotations :- Optional(obj, "annotations", DecodeToolAnnotations);
    var description :- Optional(obj, "description", DecodeString);
    var inputSchema :- Required(obj, "inputSchema", DecodeJsonSchema);
    var name :- Required(obj, "name", DecodeString);
    var outputSchema :- Optional(obj, "outputSchema", DecodeJsonSchema);
    var title :- Optional(obj, "title", DecodeString);
    Ok(Tool(annotations, description, inputSchema, name, outputSchema, title))
  }

  lemma ToolRoundTrip(x: Tool)
    ensures DecodeTool(EncodeTool(x)) == Ok(x)
  {
    var obj := EncodeTool(x).fields;
    if x.annotations.Some? { ToolAnnotationsRoundTrip(x.annotations.value); }
    OptionalRoundTrip(obj, "annotations", x.annotations, EncodeToolAnnotations, DecodeToolAnnotations);
    OptionalRoundTrip(obj, "description", x.description, EncodeString, DecodeString);
    if x.outputSchema.Some? { JsonSchemaRoundTrip(x.outputSchema.value); }
    OptionalRoundTrip(obj, "outputSchema", x.outputSchema, EncodeJsonSchema, DecodeJsonSchema);
    OptionalRoundTrip(obj, "title", x.title, EncodeString, DecodeString);
  }

  /**
   * An explicit `"outputSchema": null` is read as no output schema: the
   * tool decodes exactly as it would with the member left out.
   */
  lemma NullOutputSchemaIsAbsent(j: Json)
    requires j.JObj? && "outputSchema" in j.fields && j.fields["outputSchema"] == JNull
    ensures DecodeTool(j) == DecodeTool(JObj(j.fields - {"outputSchema"}))
    ensures DecodeTool(j).Ok? ==> DecodeTool(j).value.outputSchema.None?
  {
    var obj := j.fields;
    var rest := obj - {"outputSchema"};
    assert forall k :: k in rest <==> k in obj && k != "outputSchema";
    assert forall k | k in rest :: rest[k] == obj[k];
    assert Optional(obj, "annotations", DecodeToolAnnotations) == Optional(rest, "annotations", DecodeToolAnnotations);
    assert Optional(obj, "description", DecodeString) == Optional(rest, "description", DecodeString);
    assert Required(obj, "inputSchema", DecodeJsonSchema) == Required(rest, "inputSchema", DecodeJsonSchema);
    assert Required(obj, "name", DecodeString) == Required(rest, "name", DecodeString);
    assert Optional(obj, "outputSchema", DecodeJsonSchema) == Optional(rest, "outputSchema", DecodeJsonSchema) == Ok(None);
    assert Optional(obj, "title", DecodeString) == Optional(rest, "title", DecodeString);
  }

  function EncodeTools(xs: seq<Tool>): Json { EncodeSeq(xs, EncodeTool) }

  function DecodeTools(j: Json): Result<seq<Tool>> { DecodeSeq(j, DecodeTool) }

  lemma ToolsRoundTrip(xs: seq<Tool>)
    ensures DecodeTools(EncodeTools(xs)) == Ok(xs)
  {
    forall i | 0 <= i < |xs| ensures DecodeTool(EncodeTool(xs[i])) == Ok(xs[i]) {
      ToolRoundTrip(xs[i]);
    }
    SeqRoundTrip(xs, EncodeTool, DecodeTool);
  }

  // ---------------------------------------------------------------------
  // ToolChoice

  /** The wire names are `auto`, `required` and `none`. */
  datatype ToolChoiceMode = ModeAuto | ModeRequired | ModeNone

  function EncodeToolChoiceMode(m: ToolChoiceMode): Json {
    match m
    case ModeAuto => JStr("auto")
    case ModeRequired => JStr("required")
    case ModeNone => JStr("none")
  }

  function DecodeToolChoiceMode(j: Json): (r: Result<ToolChoiceMode>)
    ensures r.Ok? <==> j in {JStr("auto"), JStr("required"), JStr("none")}
  {
    var s :- DecodeString(j);
    if s == "auto" then Ok(ModeAuto)
    else if s == "required" then Ok(ModeRequired)
    else if s == "none" then Ok(ModeNone)
    else Err(UnknownVariant(s))
  }

  lemma ToolChoiceModeRoundTrip(m: ToolChoiceMode)
    ensures DecodeToolChoiceMode(EncodeToolChoiceMode(m)) == Ok(m)
  {
  }

  datatype ToolChoice = ToolChoice(mode: Option<ToolChoiceMode>)

  function EncodeToolChoice(x: ToolChoice): (j: Json)
    ensures j.JObj? && ("mode" in j.fields <==> x.mode.Some?)
  {
    JObj(WithOptional(map[], "mode", x.mode, EncodeToolChoiceMode))
  }

  function DecodeToolChoice(j: Json): Result<ToolChoice> {
    var obj :- AsObject(j, "ToolChoice");
    var mode :- Optional(obj, "mode", DecodeToolChoiceMode);
    Ok(ToolChoice(mode))
  }

  lemma ToolChoiceRoundTrip(x: ToolChoice)
    ensures DecodeToolChoice(EncodeToolChoice(x)) == Ok(x)
  {
    OptionalRoundTrip(EncodeToolChoice(x).fields, "mode", x.mode, EncodeToolChoiceMode, DecodeToolChoiceMode);
  }

  // ---------------------------------------------------------------------
  // CallToolRequest and CallToolResult

  datatype CallToolRequestParam = CallToolRequestParam(arguments: Option<Object>, name: string)

  function EncodeCallToolRequestParam(x: CallToolRequestParam): (j: Json)
    ensures j.JObj? && "name" in j.fields && ("arguments" in j.fields <==> x.arguments.Some?)
  {
    JObj(WithOptional(map["name" := JStr(x.name)], "arguments", x.arguments, EncodeObject))
  }

  function DecodeCallToolRequestParam(j: Json): (r: Result<CallToolRequestParam>)
    ensures j.JObj? && "name" !in j.fields ==> r.Err?
  {
    var obj :- AsObject(j, "CallToolRequestParam");
    var arguments :- Optional(obj, "arguments", DecodeObject);
    var name :- Required(obj, "name", DecodeString);
    Ok(CallToolRequestParam(arguments, name))
  }

  lemma CallToolRequestParamRoundTrip(x: CallToolRequestParam)
    ensures DecodeCallToolRequestParam(EncodeCallToolRequestParam(x)) == Ok(x)
  {
    if x.arguments.Some? { ObjectRoundTrip(x.arguments.value); }
    OptionalRoundTrip(EncodeCallToolRequestParam(x).fields, "arguments", x.arguments, EncodeObject, DecodeObject);
  }

  datatype CallToolRequest = CallToolRequest(context: PluginRequestContext, request: CallToolRequestParam)

  function EncodeCallToolRequest(x: CallToolRequest): Json {
    JObj(map["context" := EncodePluginRequestContext(x.context), "request" := EncodeCallToolRequestParam(x.request)])
  }

  function DecodeCallToolRequest(j: Json): (r: Result<CallToolRequest>)
    ensures r.Ok? ==> j.JObj? && "context" in j.fields && "request" in j.fields
  {
    var obj :- AsObject(j, "CallToolRequest");
    var context :- Required(obj, "context", DecodePluginRequestContext);
    var request :- Required(obj, "request", DecodeCallToolRequestParam);
    Ok(CallToolRequest(context, request))
  }

  lemma CallToolRequestRoundTrip(x: CallToolRequest)
    ensures DecodeCallToolRequest(EncodeCallToolRequest(x)) == Ok(x)
  {
    PluginRequestContextRoundTrip(x.context);
    CallToolRequestParamRoundTrip(x.request);
  }

  function EncodeContentBlocks(xs: seq<ContentBlock>): Json { EncodeSeq(xs, EncodeContentBlock) }

  function DecodeContentBlocks(j: Json): Result<seq<ContentBlock>> { DecodeSeq(j, DecodeContentBlock) }

  lemma ContentBlocksRoundTrip(xs: seq<ContentBlock>)
    ensures DecodeContentBlocks(EncodeContentBlocks(xs)) == Ok(xs)
  {
    forall i | 0 <= i < |xs| ensures DecodeContentBlock(EncodeContentBlock(xs[i])) == Ok(xs[i]) {
      ContentBlockRoundTrip(xs[i]);
    }
    SeqRoundTrip(xs, EncodeContentBlock, DecodeContentBlock);
  }

  datatype CallToolResult = CallToolResult(
    meta: Option<Object>,
    content: seq<ContentBlock>,
    isError: Option<bool>,
    structuredContent: Option<Object>)

  /** `content` is always written, even when empty; each optional member only when it holds a value. */
  function EncodeCallToolResult(x: CallToolResult): (j: Json)
    ensures j.JObj? && "content" in j.fields && j.fields["content"] == EncodeContentBlocks(x.content)
    ensures j.fields.Keys == {"content"}
              + (if x.meta.Some? then {"_meta"} else {})
              + (if x.isError.Some? then {"isError"} else {})
              + (if x.structuredContent.Some? then {"structuredContent"} else {})
  {
    var obj := map["content" := EncodeContentBlocks(x.content)];
    var obj := WithOptional(obj, "_meta", x.meta, EncodeObject);
    var obj := WithOptional(obj, "isError", x.isError, EncodeBool);
    JObj(WithOptional(obj, "structuredContent", x.structuredContent, EncodeObject))
  }

  /** `content` is required; a missing `isError` stays absent rather than becoming `false`. */
  function DecodeCallToolResult(j: Json): (r: Result<CallToolResult>)
    ensures j.JObj? && "content" !in j.fields ==> r.Err?
    ensures r.Ok? ==> j.JObj? && ("isError" !in j.fields ==> r.value.isError.None?)
  {
    var obj :- AsObject(j, "CallToolResult");
    var meta :- Optional(obj, "_meta", DecodeObject);
    var content :- Required(obj, "content", DecodeContentBlocks);
    var isError :- Optional(obj, "isError", DecodeBool);
    var structuredContent :- Optional(obj, "structuredContent", DecodeObject);
    Ok(CallToolResult(meta, content, isError, structuredContent))
  }

  lemma CallToolResultRoundTrip(x: CallToolResult)
    ensures DecodeCallToolResult(EncodeCallToolResult(x)) == Ok(x)
  {
    var obj := EncodeCallToolResult(x).fields;
    ContentBlocksRoundTrip(x.content);
    if x.meta.Some? { ObjectRoundTrip(x.meta.value); }
    if x.structuredContent.Some? { ObjectRoundTrip(x.structuredContent.value); }
    OptionalRoundTrip(obj, "_meta", x.meta, EncodeObject, DecodeObject);
    OptionalRoundTrip(obj, "isError", x.isError, EncodeBool, DecodeBool);
    OptionalRoundTrip(obj, "structuredContent", x.structuredContent, EncodeObject, DecodeObject);
  }

  /** A result with only its content is written as the single member `content`, here an empty array. */
  lemma ContentOnlyResult()
    ensures EncodeCallToolResult(CallToolResult(None, [], None, None)) == JObj(map["content" := JArr([])])
  {
    var j := EncodeCallToolResult(CallToolResult(None, [], None, None));
    assert j.fields.Keys == {"content"};
  }

  // ---------------------------------------------------------------------
  // ListToolsRequest and ListToolsResult

  datatype ListToolsRequest = ListToolsRequest(context: PluginRequestContext)

  function EncodeListToolsRequest(x: ListToolsRequest): Json {
    JObj(map["context" := EncodePluginRequestContext(x.context)])
  }

  function DecodeListToolsRequest(j: Json): (r: Result<ListToolsRequest>)
    ensures r.Ok? ==> j.JObj? && "context" in j.fields && DecodePluginRequestContext(j.fields["context"]) == Ok(r.value.context)
  {
    var obj :- AsObject(j, "ListToolsRequest");
    var context :- Required(obj, "context", DecodePluginRequestContext);
    Ok(ListToolsRequest(context))
  }

  lemma ListToolsRequestRoundTrip(x: ListToolsRequest)
    ensures DecodeListToolsRequest(EncodeListToolsRequest(x)) == Ok(x)
  {
    PluginRequestContextRoundTrip(x.context);
  }

  datatype ListToolsResult = ListToolsResult(tools: seq<Tool>)

  function EncodeListToolsResult(x: ListToolsResult): Json {
    JObj(map["tools" := EncodeTools(x.tools)])
  }

  function DecodeListToolsResult(j: Json): (r: Result<ListToolsResult>)
    ensures r.Ok? ==> j.JObj? && "tools" in j.fields && DecodeTools(j.fields["tools"]) == Ok(r.value.tools)
  {
    var obj :- AsObject(j, "ListToolsResult");
    var tools :- Required(obj, "tools", DecodeTools);
    Ok(ListToolsResult(tools))
  }

  lemma ListToolsResultRoundTrip(x: ListToolsResult)
    ensures DecodeListToolsResult(EncodeListToolsResult(x)) == Ok(x)
  {
    ToolsRoundTrip(x.tools);
  }
}
