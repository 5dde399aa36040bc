/**
 * Prompts a plugin offers: their listing, the arguments they take, and the
 * messages a prompt expands to.
 */
module Prompts {
  import opened Json
  import opened Codec
  import opened Content
  import opened RequestContext

  // ---------------------------------------------------------------------
  // PromptArgument and Prompt

  datatype PromptArgument = PromptArgument(description: Option<string>, name: string, required: Option<bool>, title: Option<string>)

  function EncodePromptArgument(x: PromptArgument): (j: Json)
    ensures j.JObj? && "name" in j.fields && j.fields["name"] == JStr(x.name)
    ensures "required" in j.fields <==> x.required.Some?
  {
    var obj := WithOptional(map["name" := JStr(x.name)], "description", x.description, EncodeString);
    var obj := WithOptional(obj, "required", x.required, EncodeBool);
    JObj(WithOptional(obj, "title", x.title, EncodeString))
  }

  /** Only `name` is required; an absent `required` flag stays absent rather than reading as `false`. */
  function DecodePromptArgument(j: Json): (r: Result<PromptArgument>)
    ensures r.Ok? ==> j.JObj? && "name" in j.fields && j.fields["name"] == JStr(r.value.name)
    ensures r.Ok? && "required" !in j.fields ==> r.value.required.None?
  {
    var obj :- AsObject(j, "PromptArgument");
    var description :- Optional(obj, "description", DecodeString);
    var name :- Required(obj, "name", DecodeString);
    var required :- Optional(obj, "required", DecodeBool);
    var title :- Optional(obj, "title", DecodeString);
    Ok(PromptArgument(description, name, required, title))
  }

  lemma PromptArgumentRoundTrip(x: PromptArgument)
    ensures DecodePromptArgument(EncodePromptArgument(x)) == Ok(x)
  {
    var obj := EncodePromptArgument(x).fields;
    OptionalRoundTrip(obj, "description", x.description, EncodeString, DecodeString);
    OptionalRoundTrip(obj, "required", x.required, EncodeBool, DecodeBool);
    OptionalRoundTrip(obj, "title", x.title, EncodeString, DecodeString);
  }

  function EncodePromptArguments(xs: seq<PromptArgument>): Json { EncodeSeq(xs, EncodePromptArgument) }

  function DecodePromptArguments(j: Json): Result<seq<PromptArgument>> { DecodeSeq(j, DecodePromptArgument) }

  lemma PromptArgumentsRoundTrip(xs: seq<PromptArgument>)
    ensures DecodePromptArguments(EncodePromptArguments(xs)) == Ok(xs)
  {
    forall i | 0 <= i < |xs| ensures DecodePromptArgument(EncodePromptArgument(xs[i])) == Ok(xs[i]) {
      PromptArgumentRoundTrip(xs[i]);
    }
    SeqRoundTrip(xs, EncodePromptArgument, DecodePromptArgument);
  }

  datatype Prompt = Prompt(arguments: Option<seq<PromptArgument>>, description: Option<string>, name: string, title: Option<string>)

  function EncodePrompt(x: Prompt): (j: Json)
    ensures j.JObj? && "name" in j.fields && j.fields["name"] == JStr(x.name)
    ensures "arguments" in j.fields <==> x.arguments.Some?
  {
    var obj := WithOptional(map["name" := JStr(x.name)], "arguments", x.arguments, EncodePromptArguments);
    var obj := WithOptional(obj, "description", x.description, EncodeString);
    JObj(WithOptional(obj, "title", x.title, EncodeString))
  }

  function DecodePrompt(j: Json): (r: Result<Prompt>)
    ensures r.Ok? ==> j.JObj? && "name" in j.fields && j.fields["name"] == JStr(r.value.name)
    ensures j.JObj? && "name" !in j.fields ==> r.Err?
  {
    var obj :- AsObject(j, "Prompt");
    var arguments :- Optional(obj, "arguments", DecodePromptArguments);
    var description :- Optional(obj, "description", DecodeString);
    var name :- Required(obj, "name", DecodeString);
    var title :- Optional(obj, "title", DecodeString);
    Ok(Prompt(arguments, description, name, title))
  }

  lemma PromptRoundTrip(x: Prompt)
    ensures DecodePrompt(EncodePrompt(x)) == Ok(x)
  {
    var obj := EncodePrompt(x).fields;
    if x.arguments.Some? { PromptArgumentsRoundTrip(x.arguments.value); }
    OptionalRoundTrip(obj, "arguments", x.arguments, EncodePromptArguments, DecodePromptArguments);
    OptionalRoundTrip(obj, "description", x.description, EncodeString, DecodeString);
    OptionalRoundTrip(obj, "title", x.title, EncodeString, DecodeString);
  }

  function EncodePrompts(xs: seq<Prompt>): Json { EncodeSeq(xs, EncodePrompt) }

  function DecodePrompts(j: Json): Result<seq<Prompt>> { DecodeSeq(j, DecodePrompt) }

  lemma PromptsRoundTrip(xs: seq<Prompt>)
    ensures DecodePrompts(EncodePrompts(xs)) == Ok(xs)
  {
    forall i | 0 <= i < |xs| ensures DecodePrompt(EncodePrompt(xs[i])) == Ok(xs[i]) {
      PromptRoundTrip(xs[i]);
    }
    SeqRoundTrip(xs, EncodePrompt, DecodePrompt);
  }

  // ---------------------------------------------------------------------
  // PromptMessage

  datatype PromptMessage = PromptMessage(content: ContentBlock, role: Role)

  function EncodePromptMessage(x: PromptMessage): Json {
    JObj(map["content" := EncodeContentBlock(x.content), "role" := EncodeRole(x.role)])
  }

  /** Both members are required: neither `ContentBlock`'s nor `Role`'s Rust default fills a missing key. */
  function DecodePromptMessage(j: Json): (r: Result<PromptMessage>)
    ensures j.JObj? && ("content" !in j.fields || "role" !in j.fields) ==> r.Err?
    ensures r.Ok? ==> j.JObj? && DecodeContentBlock(j.fields["content"]) == Ok(r.value.content) && DecodeRole(j.fields["role"]) == Ok(r.value.role)
  {
    var obj :- AsObject(j, "PromptMessage");
    var content :- Required(obj, "content", DecodeContentBlock);
    var role :- Required(obj, "role", DecodeRole);
    Ok(PromptMessage(content, role))
  }

  lemma PromptMessageRoundTrip(x: PromptMessage)
    ensures DecodePromptMessage(EncodePromptMessage(x)) == Ok(x)
  {
    ContentBlockRoundTrip(x.content);
    RoleRoundTrip(x.role);
  }

  /** A message without `role` is rejected, whatever its content. */
  lemma PromptMessageWithoutRoleFails(c: ContentBlock)
    ensures DecodePromptMessage(JObj(map["content" := EncodeContentBlock(c)])) == Err(MissingField("role"))
  {
    ContentBlockRoundTrip(c);
  }

  function EncodePromptMessages(xs: seq<PromptMessage>): Json { EncodeSeq(xs, EncodePromptMessage) }

  function DecodePromptMessages(j: Json): Result<seq<PromptMessage>> { DecodeSeq(j, DecodePromptMessage) }

  lemma PromptMessagesRoundTrip(xs: seq<PromptMessage>)
    ensures DecodePromptMessages(EncodePromptMessages(xs)) == Ok(xs)
  {
    forall i | 0 <= i < |xs| ensures DecodePromptMessage(EncodePromptMessage(xs[i])) == Ok(xs[i]) {
      PromptMessageRoundTrip(xs[i]);
    }
    SeqRoundTrip(xs, EncodePromptMessage, DecodePromptMessage);
  }

  // ---------------------------------------------------------------------
  // GetPrompt

  datatype GetPromptRequestParam = GetPromptRequestParam(arguments: Option<map<string, string>>, name: string)

  function EncodeGetPromptRequestParam(x: GetPromptRequestParam): (j: Json)
    ensures j.JObj? && "name" in j.fields && ("arguments" in j.fields <==> x.arguments.Some?)
  {
    JObj(WithOptional(map["name" := JStr(x.name)], "arguments", x.arguments, EncodeStringMap))
  }

  /** Template arguments must all be strings: one non-string value rejects the whole map. */
  function DecodeGetPromptRequestParam(j: Json): (r: Result<GetPromptRequestParam>)
    ensures r.Ok? ==> j.JObj? && "name" in j.fields && j.fields["name"] == JStr(r.value.name)
    ensures r.Ok? && r.value.arguments.Some? ==> "arguments" in j.fields && DecodeStringMap(j.fields["arguments"]) == Ok(r.value.arguments.value)
  {
    var obj :- AsObject(j, "GetPromptRequestParam");
    var arguments :- Optional(obj, "arguments", DecodeStringMap);
    var name :- Required(obj, "name", DecodeString);
    Ok(GetPromptRequestParam(arguments, name))
  }

  lemma GetPromptRequestParamRoundTrip(x: GetPromptRequestParam)
    ensures DecodeGetPromptRequestParam(EncodeGetPromptRequestParam(x)) == Ok(x)
  {
    if x.arguments.Some? { MapRoundTrip(x.arguments.value, EncodeString, DecodeString); }
    OptionalRoundTrip(EncodeGetPromptRequestParam(x).fields, "arguments", x.arguments, EncodeStringMap, DecodeStringMap);
  }

  datatype GetPromptRequest = GetPromptRequest(context: PluginRequestContext, request: GetPromptRequestParam)

  function EncodeGetPromptRequest(x: GetPromptRequest): Json {
    JObj(map["context" := EncodePluginRequestContext(x.context), "request" := EncodeGetPromptRequestParam(x.request)])
  }

  function DecodeGetPromptRequest(j: Json): (r: Result<GetPromptRequest>)
    ensures r.Ok? ==> j.JObj? && "context" in j.fields && "request" in j.fields
    ensures r.Ok? ==> DecodeGetPromptRequestParam(j.fields["request"]) == Ok(r.value.request)
  {
    var obj :- AsObject(j, "GetPromptRequest");
    var context :- Required(obj, "context", DecodePluginRequestContext);
    var request :- Required(obj, "request", DecodeGetPromptRequestParam);
    Ok(GetPromptRequest(context, request))
  }

  lemma GetPromptRequestRoundTrip(x: GetPromptRequest)
    ensures DecodeGetPromptRequest(EncodeGetPromptRequest(x)) == Ok(x)
  {
    PluginRequestContextRoundTrip(x.context);
    GetPromptRequestParamRoundTrip(x.request);
  }

  datatype GetPromptResult = GetPromptResult(description: Option<string>, messages: seq<PromptMessage>)

  /** `messages` is written even when empty. */
  function EncodeGetPromptResult(x: GetPromptResult): (j: Json)
    ensures j.JObj? && "messages" in j.fields && j.fields["messages"] == EncodePromptMessages(x.messages)
    ensures "description" in j.fields <==> x.description.Some?
  {
    JObj(WithOptional(map["messages" := EncodePromptMessages(x.messages)], "description", x.description, EncodeString))
  }

  function DecodeGetPromptResult(j: Json): (r: Result<GetPromptResult>)
    ensures r.Ok? ==> j.JObj? && "messages" in j.fields && DecodePromptMessages(j.fields["messages"]) == Ok(r.value.messages)
  {
    var obj :- AsObject(j, "GetPromptResult");
    var description :- Optional(obj, "description", DecodeString);
    var messages :- Required(obj, "messages", DecodePromptMessages);
    Ok(GetPromptResult(description, messages))
  }

  lemma GetPromptResultRoundTrip(x: GetPromptResult)
    ensures DecodeGetPromptResult(EncodeGetPromptResult(x)) == Ok(x)
  {
    PromptMessagesRoundTrip(x.messages);
    OptionalRoundTrip(EncodeGetPromptResult(x).fields, "description", x.description, EncodeString, DecodeString);
  }

  // ---------------------------------------------------------------------
  // ListPrompts

  datatype ListPromptsRequest = ListPromptsRequest(context: PluginRequestContext)

  function EncodeListPromptsRequest(x: ListPromptsRequest): Json {
    JObj(map["context" := EncodePluginRequestContext(x.context)])
  }

  function DecodeListPromptsRequest(j: Json): (r: Result<ListPromptsRequest>)
    ensures r.Ok? ==> j.JObj? && "context" in j.fields && DecodePluginRequestContext(j.fields["context"]) == Ok(r.value.context)
  {
    var obj :- AsObject(j, "ListPromptsRequest");
    var context :- Required(obj, "context", DecodePluginRequestContext);
    Ok(ListPromptsRequest(context))
  }

  lemma ListPromptsRequestRoundTrip(x: ListPromptsRequest)
    ensures DecodeListPromptsRequest(EncodeListPromptsRequest(x)) == Ok(x)
  {
    PluginRequestContextRoundTrip(x.context);
  }

  datatype ListPromptsResult = ListPromptsResult(prompts: seq<Prompt>)

  function EncodeListPromptsResult(x: ListPromptsResult): Json {
    JObj(map["prompts" := EncodePrompts(x.prompts)])
  }

  function DecodeListPromptsResult(j: Json): (r: Result<ListPromptsResult>)
    ensures r.Ok? ==> j.JObj? && "prompts" in j.fields && DecodePrompts(j.fields["prompts"]) == Ok(r.value.prompts)
  {
    var obj :- AsObject(j, "ListPromptsResult");
    var prompts :- Required(obj, "prompts", DecodePrompts);
    Ok(ListPromptsResult(prompts))
  }

  lemma ListPromptsResultRoundTrip(x: ListPromptsResult)
    ensures DecodeListPromptsResult(EncodeListPromptsResult(x)) == Ok(x)
  {
    PromptsRoundTrip(x.prompts);
  }
}
