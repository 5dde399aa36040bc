/**
 * Sampling: a plugin asks the host's model for a message. The request carries
 * the conversation, the token budget and optional preferences; the result
 * carries one sampled message. Floating-point members are real numbers here.
 */
module Sampling {
  import opened Json
  import opened Codec
  import opened Content
  import opened Tools

  // ---------------------------------------------------------------------
  // Model preferences

  datatype ModelHint = ModelHint(name: string)

  function EncodeModelHint(x: ModelHint): Json { JObj(map["name" := JStr(x.name)]) }

  function DecodeModelHint(j: Json): (r: Result<ModelHint>)
    ensures r.Ok? <==> j.JObj? && "name" in j.fields && j.fields["name"].JStr?
  {
    var obj :- AsObject(j, "ModelHint");
    var name :- Required(obj, "name", DecodeString);
    Ok(ModelHint(name))
  }

  lemma ModelHintRoundTrip(x: ModelHint)
    ensures DecodeModelHint(EncodeModelHint(x)) == Ok(x)
  {
  }

  /**
   * Every member is required. `cost_priority` has no rename, so unlike its
   * two siblings it keeps its snake-case wire name. The 0 to 1 ranges are
   * documented only: nothing checks them.
   */
  datatype ModelPreferences = ModelPreferences(costPriority: real, hints: seq<ModelHint>, intelligencePriority: real, speedPriority: real)

  function EncodeModelPreferences(x: ModelPreferences): (j: Json)
    ensures j.JObj? && j.fields.Keys == {"cost_priority", "hints", "intelligencePriority", "speedPriority"}
  {
    JObj(map[
      "cost_priority" := JFloat(x.costPriority),
      "hints" := EncodeSeq(x.hints, EncodeModelHint),
      "intelligencePriority" := JFloat(x.intelligencePriority),
      "speedPriority" := JFloat(x.speedPriority)])
  }

  function DecodeModelHints(j: Json): Result<seq<ModelHint>> { DecodeSeq(j, DecodeModelHint) }

  /** A `costPriority` member is not the cost priority: the struct reads `cost_priority`. */
  function DecodeModelPreferences(j: Json): (r: Result<ModelPreferences>)
    ensures j.JObj? && "cost_priority" !in j.fields ==> r == Err(MissingField("cost_priority"))
  {
    var obj :- AsObject(j, "ModelPreferences");
    var costPriority :- Required(obj, "cost_priority", DecodeFloat);
    var hints :- Required(obj, "hints", DecodeModelHints);
    var intelligencePriority :- Required(obj, "intelligencePriority", DecodeFloat);
    var speedPriority :- Required(obj, "speedPriority", DecodeFloat);
    Ok(ModelPreferences(costPriority, hints, intelligencePriority, speedPriority))
  }

  lemma ModelPreferencesRoundTrip(x: ModelPreferences)
    ensures DecodeModelPreferences(EncodeModelPreferences(x)) == Ok(x)
  {
    SeqRoundTrip(x.hints, EncodeModelHint, DecodeModelHint);
  }

  // ---------------------------------------------------------------------
  // CreateMessageRequestParam

  datatype IncludeContext = IncludeNone | ThisServer | AllServers

  function EncodeIncludeContext(c: IncludeContext): Json {
    match c
    case IncludeNone => JStr("none")
    case ThisServer => JStr("thisServer")
    case AllServers => JStr("allServers")
  }

  function DecodeIncludeContext(j: Json): (r: Result<IncludeContext>)
    ensures r.Ok? <==> j in {JStr("none"), JStr("thisServer"), JStr("allServers")}
  {
    var s :- DecodeString(j);
    if s == "none" then Ok(IncludeNone)
    else if s == "thisServer" then Ok(ThisServer)
    else if s == "allServers" then Ok(AllServers)
    else Err(UnknownVariant(s))
  }

  lemma IncludeContextRoundTrip(c: IncludeContext)
    ensures DecodeIncludeContext(EncodeIncludeContext(c)) == Ok(c)
  {
  }

  datatype CreateMessageRequestParam = CreateMessageRequestParam(
    includeContext: Option<IncludeContext>,
    maxTokens: int64,
    messages: seq<SamplingMessage>,
    metadata: Option<Json>,
    modelPreferences: Option<ModelPreferences>,
    stopSequences: Option<seq<string>>,
    systemPrompt: Option<string>,
    task: Option<Object>,
    temperature: Option<real>,
    toolChoice: Option<ToolChoice>,
    tools: Option<seq<Tool>>)

  function EncodeSamplingMessages(xs: seq<SamplingMessage>): Json { EncodeSeq(xs, EncodeSamplingMessage) }

  function DecodeSamplingMessages(j: Json): Result<seq<SamplingMessage>> { DecodeSeq(j, DecodeSamplingMessage) }

  lemma SamplingMessagesRoundTrip(xs: seq<SamplingMessage>)
    ensures DecodeSamplingMessages(EncodeSamplingMessages(xs)) == Ok(xs)
  {
    forall i | 0 <= i < |xs| ensures DecodeSamplingMessage(EncodeSamplingMessage(xs[i])) == Ok(xs[i]) {
      SamplingMessageRoundTrip(xs[i]);
    }
    SeqRoundTrip(xs, EncodeSamplingMessage, DecodeSamplingMessage);
  }

  /** The members of a request in declaration order: `maxTokens` and `messages` always, the nine others only when set. */
  function CreateMessageRequestParamEntries(x: CreateMessageRequestParam): (es: seq<Entry>)
    ensures |es| == 11 && DistinctKeys(es)
  {
    [ OptionalEntry("includeContext", x.includeContext, EncodeIncludeContext),
      ("maxTokens", Some(EncodeInt64(x.maxTokens))),
      ("messages", Some(EncodeSamplingMessages(x.messages))),
      OptionalEntry("metadata", x.metadata, EncodeValue),
      OptionalEntry("modelPreferences", x.modelPreferences, EncodeModelPreferences),
      OptionalEntry("stopSequences", x.stopSequences, EncodeStrings),
      OptionalEntry("systemPrompt", x.systemPrompt, EncodeString),
      OptionalEntry("task", x.task, EncodeObject),
      OptionalEntry("temperature", x.temperature, EncodeFloat),
      OptionalEntry("toolChoice", x.toolChoice, EncodeToolChoice),
      OptionalEntry("tools", x.tools, EncodeTools) ]
  }

  function EncodeCreateMessageRequestParam(x: CreateMessageRequestParam): Json {
    JObj(AddEntries(map[], CreateMessageRequestParamEntries(x)))
  }

  function CreateMessageRequestParamMembers(obj: Object): Result<CreateMessageRequestParam> {
    var includeContext :- Optional(obj, "includeContext", DecodeIncludeContext);
    var maxTokens :- Required(obj, "maxTokens", DecodeInt64);
    var messages :- Required(obj, "messages", DecodeSamplingMessages);
    var metadata :- Optional(obj, "metadata", DecodeValue);
    var modelPreferences :- Optional(obj, "modelPreferences", DecodeModelPreferences);
    var stopSequences :- Optional(obj, "stopSequences", DecodeStrings);
    var systemPrompt :- Optional(obj, "systemPrompt", DecodeString);
    var task :- Optional(obj, "task", DecodeObject);
    var temperature :- Optional(obj, "temperature", DecodeFloat);
    var toolChoice :- Optional(obj, "toolChoice", DecodeToolChoice);
    var tools :- Optional(obj, "tools", DecodeTools);
    Ok(CreateMessageRequestParam(includeContext, maxTokens, messages, metadata, modelPreferences,
                                 stopSequences, systemPrompt, task, temperature, toolChoice, tools))
  }

  /** `metadata` may be any JSON value, but an explicit `null` reads as no metadata at all. */
  function DecodeCreateMessageRequestParam(j: Json): (r: Result<CreateMessageRequestParam>)
    ensures r.Ok? ==> j.JObj? && "maxTokens" in j.fields && "messages" in j.fields
    ensures r.Ok? && "metadata" in j.fields && j.fields["metadata"] == JNull ==> r.value.metadata.None?
  {
    var obj :- AsObject(j, "CreateMessageRequestParam");
    CreateMessageRequestParamMembers(obj)
  }

  /** Every request comes back as itself, except that metadata which is `null` is lost (see `NullMetadataIsLost`). */
  lemma CreateMessageRequestParamRoundTrip(x: CreateMessageRequestParam)
    requires x.metadata != Some(JNull)
    ensures DecodeCreateMessageRequestParam(EncodeCreateMessageRequestParam(x)) == Ok(x)
  {
    var obj := AddEntries(map[], CreateMessageRequestParamEntries(x));
    CreateMessageRequestParamLeadingMembers(x);
    CreateMessageRequestParamMiddleMembers(x);
    CreateMessageRequestParamTrailingMembers(x);
    CreateMessageRequestParamMembersOk(obj, x);
  }

  lemma CreateMessageRequestParamLeadingMembers(x: CreateMessageRequestParam)
    requires x.metadata != Some(JNull)
    ensures var obj := AddEntries(map[], CreateMessageRequestParamEntries(x));
      && Optional(obj, "includeContext", DecodeIncludeContext) == Ok(x.includeContext)
      && Required(obj, "maxTokens", DecodeInt64) == Ok(x.maxTokens)
      && Required(obj, "messages", DecodeSamplingMessages) == Ok(x.messages)
      && Optional(obj, "metadata", DecodeValue) == Ok(x.metadata)
  {
    var es := CreateMessageRequestParamEntries(x);
    if x.includeContext.Some? { IncludeContextRoundTrip(x.includeContext.value); }
    OptionalEntryRoundTrip(es, 0, "includeContext", x.includeContext, EncodeIncludeContext, DecodeIncludeContext);
    AddEntriesWrites(map[], es, 1);
    AddEntriesWrites(map[], es, 2);
    SamplingMessagesRoundTrip(x.messages);
    OptionalEntryRoundTrip(es, 3, "metadata", x.metadata, EncodeValue, DecodeValue);
  }

  lemma CreateMessageRequestParamMiddleMembers(x: CreateMessageRequestParam)
    ensures var obj := AddEntries(map[], CreateMessageRequestParamEntries(x));
      && Optional(obj, "modelPreferences", DecodeModelPreferences) == Ok(x.modelPreferences)
      && Optional(obj, "stopSequences", DecodeStrings) == Ok(x.stopSequences)
      && Optional(obj, "systemPrompt", DecodeString) == Ok(x.systemPrompt)
      && Optional(obj, "task", DecodeObject) == Ok(x.task)
  {
    var es := CreateMessageRequestParamEntries(x);
    if x.modelPreferences.Some? { ModelPreferencesRoundTrip(x.modelPreferences.value); }
    OptionalEntryRoundTrip(es, 4, "modelPreferences", x.modelPreferences, EncodeModelPreferences, DecodeModelPreferences);
    if x.stopSequences.Some? { StringsRoundTrip(x.stopSequences.value); }
    OptionalEntryRoundTrip(es, 5, "stopSequences", x.stopSequences, EncodeStrings, DecodeStrings);
    OptionalEntryRoundTrip(es, 6, "systemPrompt", x.systemPrompt, EncodeString, DecodeString);
    if x.task.Some? { ObjectRoundTrip(x.task.value); }
    OptionalEntryRoundTrip(es, 7, "task", x.task, EncodeObject, DecodeObject);
  }

  lemma CreateMessageRequestParamTrailingMembers(x: CreateMessageRequestParam)
    ensures var obj := AddEntries(map[], CreateMessageRequestParamEntries(x));
      && Optional(obj, "temperature", DecodeFloat) == Ok(x.temperature)
      && Optional(obj, "toolChoice", DecodeToolChoice) == Ok(x.toolChoice)
      && Optional(obj, "tools", DecodeTools) == Ok(x.tools)
  {
    var es := CreateMessageRequestParamEntries(x);
    OptionalEntryRoundTrip(es, 8, "temperature", x.temperature, EncodeFloat, DecodeFloat);
    if x.toolChoice.Some? { ToolChoiceRoundTrip(x.toolChoice.value); }
    OptionalEntryRoundTrip(es, 9, "toolChoice", x.toolChoice, EncodeToolChoice, DecodeToolChoice);
    if x.tools.Some? { ToolsRoundTrip(x.tools.value); }
    OptionalEntryRoundTrip(es, 10, "tools", x.tools, EncodeTools, DecodeTools);
  }

  lemma CreateMessageRequestParamMembersOk(obj: Object, x: CreateMessageRequestParam)
    requires Optional(obj, "includeContext", DecodeIncludeContext) == Ok(x.includeContext)
    requires Required(obj, "maxTokens", DecodeInt64) == Ok(x.maxTokens)
    requires Required(obj, "messages", DecodeSamplingMessages) == Ok(x.messages)
    requires Optional(obj, "metadata", DecodeValue) == Ok(x.metadata)
    requires Optional(obj, "modelPreferences", DecodeModelPreferences) == Ok(x.modelPreferences)
    requires Optional(obj, "stopSequences", DecodeStrings) == Ok(x.stopSequences)
    requires Optional(obj, "systemPrompt", DecodeString) == Ok(x.systemPrompt)
    requires Optional(obj, "task", DecodeObject) == Ok(x.task)
    requires Optional(obj, "temperature", DecodeFloat) == Ok(x.temperature)
    requires Optional(obj, "toolChoice", DecodeToolChoice) == Ok(x.toolChoice)
    requires Optional(obj, "tools", DecodeTools) == Ok(x.tools)
    ensures CreateMessageRequestParamMembers(obj) == Ok(x)
  {
  }

  /**
   * `Some(null)` metadata is written as `"metadata": null`, which an `Option`
   * reads as absent: the request comes back without metadata.
   */
  lemma NullMetadataIsLost(maxTokens: int64)
    ensures DecodeCreateMessageRequestParam(EncodeCreateMessageRequestParam(
              CreateMessageRequestParam(None, maxTokens, [], Some(JNull), None, None, None, None, None, None, None)))
         == Ok(CreateMessageRequestParam(None, maxTokens, [], None, None, None, None, None, None, None, None))
  {
    var es := CreateMessageRequestParamEntries(CreateMessageRequestParam(None, maxTokens, [], Some(JNull), None, None, None, None, None, None, None));
    var obj := AddEntries(map[], es);
    assert Optional(obj, "metadata", DecodeValue) == Ok(None) by {
      AddEntriesWrites(map[], es, 3);
    }
    var y := CreateMessageRequestParam(None, maxTokens, [], None, None, None, None, None, None, None, None);
    AddEntriesWrites(map[], es, 1);
    AddEntriesWrites(map[], es, 2);
    OptionalEntryRoundTrip(es, 0, "includeContext", y.includeContext, EncodeIncludeContext, DecodeIncludeContext);
    OptionalEntryRoundTrip(es, 4, "modelPreferences", y.modelPreferences, EncodeModelPreferences, DecodeModelPreferences);
    OptionalEntryRoundTrip(es, 5, "stopSequences", y.stopSequences, EncodeStrings, DecodeStrings);
    OptionalEntryRoundTrip(es, 6, "systemPrompt", y.systemPrompt, EncodeString, DecodeString);
    OptionalEntryRoundTrip(es, 7, "task", y.task, EncodeObject, DecodeObject);
    OptionalEntryRoundTrip(es, 8, "temperature", y.temperature, EncodeFloat, DecodeFloat);
    OptionalEntryRoundTrip(es, 9, "toolChoice", y.toolChoice, EncodeToolChoice, DecodeToolChoice);
    OptionalEntryRoundTrip(es, 10, "tools", y.tools, EncodeTools, DecodeTools);
    SamplingMessagesRoundTrip([]);
    CreateMessageRequestParamMembersOk(obj, y);
  }

  // ---------------------------------------------------------------------
  // CreateMessageResult

  datatype CreateMessageResult = CreateMessageResult(content: SamplingMessage, model: string, role: Role, stopReason: Option<string>)

  function EncodeCreateMessageResult(x: CreateMessageResult): (j: Json)
    ensures j.JObj? && "content" in j.fields && "model" in j.fields && "role" in j.fields
  {
    var obj := map["content" := EncodeSamplingMessage(x.content), "model" := JStr(x.model), "role" := EncodeRole(x.role)];
    JObj(WithOptional(obj, "stopReason", x.stopReason, EncodeString))
  }

  /** `role` is required: `Role`'s Rust default does not fill a missing key. */
  function DecodeCreateMessageResult(j: Json): (r: Result<CreateMessageResult>)
    ensures r.Ok? ==> j.JObj? && "content" in j.fields && "model" in j.fields && "role" in j.fields
    ensures r.Ok? ==> DecodeSamplingMessage(j.fields["content"]) == Ok(r.value.content)
  {
    var obj :- AsObject(j, "CreateMessageResult");
    var content :- Required(obj, "content", DecodeSamplingMessage);
    var model :- Required(obj, "model", DecodeString);
    var role :- Required(obj, "role", DecodeRole);
    var stopReason :- Optional(obj, "stopReason", DecodeString);
    Ok(CreateMessageResult(content, model, role, stopReason))
  }

  lemma CreateMessageResultRoundTrip(x: CreateMessageResult)
    ensures DecodeCreateMessageResult(EncodeCreateMessageResult(x)) == Ok(x)
  {
    SamplingMessageRoundTrip(x.content);
    RoleRoundTrip(x.role);
    OptionalRoundTrip(EncodeCreateMessageResult(x).fields, "stopReason", x.stopReason, EncodeString, DecodeString);
  }
}
