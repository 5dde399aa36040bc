# pdk wire codec, modelled in Dafny

The plugin development kit exchanges JSON with its host: an MCP-style protocol.
Tools, prompts, resources, sampling, elicitation, completion, logging and
progress each have their own types. `src/pdk/types.rs` defines how every one of
those types is written to and read from JSON. Most types use serde's derived
rules. Eleven content, reference and schema types use hand-written `Serialize` and
`Deserialize` impls that add and check a literal `type` member.

This project models that codec one level above text, on a JSON value tree:

- `Json` is `JNull | JBool | JInt | JFloat | JStr | JArr | JObj(map<string, Json>)` (`json.dfy`).
- Each protocol type has a Dafny datatype, an `Encode…` function and a `Decode…`
  function that returns a `Result`.
- `DecodeError` stands in for serde's error messages, one constructor per kind of failure.

The serde rules used by the code are modelled explicitly:

- **Presence policy** (`Json.Optional`, `Json.Required`, `Json.WithOptional`):
  - An `Option` field that is `None` is not written.
  - An `Option` field whose key is missing or `null` reads as `None`.
  - A non-`Option` field is always written and is required when reading (`MissingField`).
  - A `Vec` field counts as non-`Option`, even when it is empty.
  - Members the struct does not declare are ignored.
- **Fixed-width numbers**: an `i64` accepts only an integer in range. An `f32`/`f64` accepts any number.
- **Tagged structs** (`Codec.Tagged`, `Codec.DecodeTagged`, `Codec.ValidateTypeField`):
  - Encoding adds the fixed literal `type`.
  - Decoding reads `type` as a required string, decodes the members, then rejects any tag other than the literal.
- **Untagged enums** (`Codec.FirstMatch`): the variants are tried in declaration order and the first success wins. When none succeeds, the result is `NoVariantMatched`.
- **`Empty`**: it denies unknown fields, so it accepts exactly `{}`. It is the last variant and the Rust default of every untagged union that ends in it.
- **`ElicitationRequestParam`** is internally tagged by `mode`. `ElicitationRequestParamWithTimeout` flattens it beside an optional `timeout`. A flattened field is read from serde's buffered copy of the object. There the tag may also be the variant's index as an unsigned integer (`Elicitation.VariantIndexAsName`). Read directly, the tag must be a string.

Every type has a round-trip lemma `Decode(Encode(x)) == Ok(x)`. Every untagged union also has lemmas stating:

- which variant a given object is taken as;
- that the order of trial matters where two variants overlap;
- how the `Empty` fallback behaves.

The code does not round-trip every value:

- an `Option<Value>` holding JSON `null` is written as `null`;
- it is then read back as `None`.

So the round trip of `CreateMessageRequestParam` excludes metadata that is `null`. Lemma `Sampling.NullMetadataIsLost` states what happens instead. This model follows the code.
A tool's schemas are `schemars::Schema` values, which hold only a boolean or an object (`Tools.JsonSchema`).
So an output schema is never `null`, and every tool round-trips. `Tools.NullOutputSchemaIsAbsent` states that `"outputSchema": null` on the wire reads as no output schema.

Files, one module each:

| file | module | what it covers |
|---|---|---|
| `json.dfy` | `Json` | value tree, errors, scalar, sequence and map codecs, field-presence helpers |
| `codec.dfy` | `Codec` | `validate_type_field`, tagged structs, untagged unions, `Empty` |
| `context.dfy` | `RequestContext` | `PluginRequestId`, request and notification contexts |
| `content.dfy` | `Content` | `Role`, `Annotations`, the five content structs, resource contents, `ContentBlock`, `SamplingMessage` |
| `reference.dfy` | `References` | prompt and resource-template references, `Reference` |
| `schema.dfy` | `Schemas` | boolean, enum, number and string schemas, `PrimitiveSchemaDefinition`, `Schema` |
| `elicitation.dfy` | `Elicitation` | elicitation request (mode-tagged), timeout wrapper, result, response notification |
| `tools.dfy` | `Tools` | `Tool`, annotations, tool choice, call-tool request/result, list-tools |
| `completion.dfy` | `Completion` | completion request and result |
| `sampling.dfy` | `Sampling` | model preferences, include-context, create-message request and result |
| `prompts.dfy` | `Prompts` | prompts, prompt arguments and messages, get-prompt, list-prompts |
| `resources.dfy` | `Resources` | resources, templates, read-resource, list-resources, roots, update notification |
| `notifications.dfy` | `Notifications` | logging level and message, progress, keyring entry id |

## Model

| member | source | states |
|---|---|---|
| Codec.ValidateTypeField | src/pdk/types.rs:12-24 | passes exactly when the found tag equals the expected one; otherwise the error carries the type name, the expected tag and the found tag |
| Codec.Tagged | src/pdk/types.rs:56-84 | a tagged encoding holds the fixed literal under `type` and otherwise exactly the struct's own members |
| Codec.CheckTag | src/pdk/types.rs:86-116 | the tag check passes exactly when `type` is the literal; a missing `type` is `MissingField("type")`; a different string is a type mismatch naming both tags |
| Codec.DecodeTagged | src/pdk/types.rs:86-116 | a tagged decode succeeds only on an object whose `type` is the literal, and then yields exactly the decoded members; with the right tag and well-formed members it always succeeds |
| Codec.DecodeTaggedMismatch | src/pdk/types.rs:1712-1732 | well-formed members under a wrong `type` fail with a mismatch carrying the expected and the found tag |
| Codec.DecodeTaggedMissingTag | src/pdk/types.rs:1122-1143 | well-formed members without any `type` fail with `MissingField("type")`, because the helper's `type` is a required string |
| Codec.Lift | src/pdk/types.rs:325-335 | wrapping a variant's decode result in its constructor keeps success and failure and the decoded value |
| Codec.FirstMatch | src/pdk/types.rs:325-335 | an untagged union decodes exactly when some variant decodes; if none does, the error is `NoVariantMatched` for the union |
| Codec.FirstMatchAt | src/pdk/types.rs:325-335 | if variant k succeeds and every earlier variant fails, the union yields variant k's result |
| Codec.DecodeEmpty | src/pdk/types.rs:594-596 | `Empty` accepts exactly `{}`; any member is reported as unknown |
| Codec.EmptyRoundTrip | src/pdk/types.rs:594-596 | `Empty` is written as `{}` and reads back as itself |
| Json.DecodeInt64 | src/pdk/types.rs:319 | an `i64` field accepts exactly the integers in the signed 64-bit range, with the same value |
| Json.DecodeFloat | src/pdk/types.rs:387 | an `f32`/`f64` field accepts exactly the JSON numbers; an integer reads as the same number |
| Json.EncodeSeq | src/pdk/types.rs:322 | a `Vec` is written as an array with one element per item, in order |
| Json.DecodeItems | src/pdk/types.rs:322 | a `Vec` decodes exactly when every element decodes, with the same length and each element's value in place |
| Json.SeqRoundTrip | src/pdk/types.rs:322 | a `Vec` round-trips when its element type does |
| Json.StringsRoundTrip | src/pdk/types.rs:372 | a `Vec<String>` round-trips |
| Json.EncodeMap | src/pdk/types.rs:298 | a map is written as an object with the same keys, each value encoded |
| Json.DecodeMap | src/pdk/types.rs:298 | a map decodes exactly when every member decodes; the keys are the object's keys and each value is the member's decoding |
| Json.MapRoundTrip | src/pdk/types.rs:298 | a map round-trips when its value type does |
| Json.ObjectRoundTrip | src/pdk/types.rs:254-258 | a JSON object (`Map<String, Value>`, `Meta`) round-trips unchanged |
| Json.Required | src/pdk/types.rs:245-246 | a non-`Option` field decodes only from its own key's value; a missing key is `MissingField` with that key |
| Json.Optional | src/pdk/types.rs:248-252 | an `Option` field whose key is missing or `null` is `None`; a `Some` comes from decoding the key's value |
| Json.WithOptional | src/pdk/types.rs:248-252 | a `None` field adds no key; a `Some` field adds its key with the encoded value |
| Json.OptionalPresent | src/pdk/types.rs:248-252 | a present, non-null value that decodes back reads as `Some` of it |
| Json.OptionalRoundTrip | src/pdk/types.rs:248-252 | an `Option` field written by the skip-if-none rule reads back as itself, provided its encoding is not `null` |
| Json.OptionalEntry | src/pdk/types.rs:1268-1308 | an optional member contributes its key and, exactly when present, its encoded value |
| Json.AddEntriesKeeps | src/pdk/types.rs:1268-1308 | writing members under other keys leaves a key's presence and value unchanged |
| Json.AddEntriesWrites | src/pdk/types.rs:1268-1308 | with distinct keys, each present member ends up under its key with its value, and an absent one adds nothing |
| Json.OptionalEntryRoundTrip | src/pdk/types.rs:1310-1362 | in an object written from distinct members, each optional member reads back as itself |
| RequestContext.DecodePluginRequestId | src/pdk/types.rs:984-990 | a request id decodes exactly from a string or an in-range integer; a string stays a string; anything else fails the union |
| RequestContext.PluginRequestIdRoundTrip | src/pdk/types.rs:984-996 | both id forms round-trip |
| RequestContext.OutOfRangeIdRejected | src/pdk/types.rs:984-990 | an integer id above or below the `i64` range matches no variant |
| RequestContext.DecodePluginRequestContext | src/pdk/types.rs:973-982 | `_meta` has no default, so without it the context fails with `MissingField("_meta")`; a decoded context had both `_meta` and `id` |
| RequestContext.PluginRequestContextRoundTrip | src/pdk/types.rs:973-982 | the request context round-trips |
| RequestContext.DecodePluginNotificationContext | src/pdk/types.rs:965-971 | without `_meta` the notification context fails with `MissingField("_meta")` |
| RequestContext.PluginNotificationContextRoundTrip | src/pdk/types.rs:965-971 | the notification context round-trips |
| Content.DecodeRole | src/pdk/types.rs:1453-1461 | a role decodes exactly from `"assistant"` or `"user"` |
| Content.RoleRoundTrip | src/pdk/types.rs:1453-1461 | both roles round-trip |
| Content.EncodeAnnotations | src/pdk/types.rs:26-38 | annotations are written as an object with exactly `audience`, `lastModified` and `priority`, each holding its field's value |
| Content.DecodeAnnotations | src/pdk/types.rs:26-38 | `audience`, `lastModified` and `priority` are all required |
| Content.AnnotationsRoundTrip | src/pdk/types.rs:26-38 | annotations round-trip |
| Content.MetaAndAnnotationsRoundTrip | src/pdk/types.rs:91-98 | the `_meta` and `annotations` members written by a helper read back as the same options |
| Content.EncodeAudioContent | src/pdk/types.rs:56-84 | audio content always carries `type: "audio"` |
| Content.DecodeAudioContent | src/pdk/types.rs:86-116 | audio content decodes only from an object tagged `"audio"` |
| Content.AudioContentRoundTrip | src/pdk/types.rs:40-116 | audio content round-trips |
| Content.EncodeImageContent | src/pdk/types.rs:731-759 | image content always carries `type: "image"` |
| Content.DecodeImageContent | src/pdk/types.rs:761-797 | image content decodes only from an object tagged `"image"` |
| Content.ImageContentRoundTrip | src/pdk/types.rs:715-797 | image content round-trips |
| Content.EncodeTextContent | src/pdk/types.rs:1680-1705 | text content always carries `type: "text"` |
| Content.DecodeTextContent | src/pdk/types.rs:1707-1740 | text content decodes only from an object tagged `"text"` |
| Content.TextContentRoundTrip | src/pdk/types.rs:1667-1740 | text content round-trips |
| Content.EncodeBlobResourceContents | src/pdk/types.rs:118-138 | blob contents are written with `blob` and `uri` and no `type` |
| Content.DecodeBlobResourceContents | src/pdk/types.rs:118-138 | blob contents require `blob` and `uri` |
| Content.BlobResourceContentsRoundTrip | src/pdk/types.rs:118-138 | blob contents round-trip |
| Content.EncodeTextResourceContents | src/pdk/types.rs:1742-1762 | text contents are written with `text`, without `blob` and without `type` |
| Content.DecodeTextResourceContents | src/pdk/types.rs:1742-1762 | text contents require `text` and `uri` |
| Content.TextResourceContentsRoundTrip | src/pdk/types.rs:1742-1762 | text contents round-trip |
| Content.EncodeResourceContents | src/pdk/types.rs:1225-1232 | every variant is written as an object with no `type`; only `Empty` is written as `{}`; `Blob` carries `blob` and `uri`; `Text` carries `text` and `uri` and no `blob` |
| Content.ResourceContentsRoundTrip | src/pdk/types.rs:1225-1238 | every resource-contents variant, `Empty` included, is read back as the same variant |
| Content.EmptyObjectIsDefaultResourceContents | src/pdk/types.rs:1234-1238 | `{}` decodes as the `Empty` default |
| Content.ResourceContentsWithoutUriFails | src/pdk/types.rs:1225-1232 | a non-empty object without `uri` matches no variant |
| Content.ResourceContentsPicksBlob | src/pdk/types.rs:1228-1232 | whatever decodes as blob contents decodes as `Blob`, the first variant tried |
| Content.ResourceContentsPicksText | src/pdk/types.rs:1228-1232 | whatever decodes as text contents but not as blob contents decodes as `Text` |
| Content.BlobBeforeText | src/pdk/types.rs:1228-1232 | an object with `blob`, `text` and `uri` decodes as either variant, and the union takes it as `Blob`, which is tried first |
| Content.EncodeEmbeddedResource | src/pdk/types.rs:532-557 | an embedded resource always carries `type: "resource"` |
| Content.DecodeEmbeddedResource | src/pdk/types.rs:559-592 | an embedded resource decodes only from an object tagged `"resource"` |
| Content.EmbeddedResourceRoundTrip | src/pdk/types.rs:519-592 | an embedded resource round-trips |
| Content.ResourceLinkEntries | src/pdk/types.rs:1268-1308 | a resource link writes eight members under distinct keys |
| Content.EncodeResourceLink | src/pdk/types.rs:1268-1308 | a resource link always carries `type: "resource_link"` |
| Content.DecodeResourceLink | src/pdk/types.rs:1310-1362 | a resource link decodes only from an object tagged `"resource_link"` |
| Content.ResourceLinkRoundTrip | src/pdk/types.rs:1240-1362 | a resource link round-trips |
| Content.ResourceLinkLeadingMembers | src/pdk/types.rs:1294-1304 | `_meta`, `annotations`, `description` and `mimeType` read back from the encoding as written |
| Content.ResourceLinkTrailingMembers | src/pdk/types.rs:1294-1304 | `name`, `size`, `title` and `uri` read back from the encoding as written |
| Content.ResourceLinkMembersOk | src/pdk/types.rs:1351-1360 | when each member reads back, the resource link's members decode to the original link |
| Content.EncodeContentBlock | src/pdk/types.rs:325-335 | each variant is written as its own object with no wrapper, tagged `audio`, `resource`, `image`, `resource_link` or `text`; only `Empty` is written as `{}` |
| Content.ContentBlockRoundTrip | src/pdk/types.rs:325-341 | every content-block variant is read back as the same variant |
| Content.ContentBlockPicksAudio | src/pdk/types.rs:328-335 | whatever decodes as audio content decodes as the `Audio` block |
| Content.ContentBlockPicksEmbeddedResource | src/pdk/types.rs:328-335 | whatever decodes as an embedded resource decodes as that block |
| Content.ContentBlockPicksImage | src/pdk/types.rs:328-335 | whatever decodes as image content decodes as the `Image` block, not captured by `Audio` tried first |
| Content.ContentBlockPicksResourceLink | src/pdk/types.rs:328-335 | whatever decodes as a resource link decodes as that block |
| Content.ContentBlockPicksText | src/pdk/types.rs:328-335 | whatever decodes as text content decodes as the `Text` block |
| Content.ContentBlockPicksEmpty | src/pdk/types.rs:337-341 | `{}` decodes as the `Empty` default block |
| Content.ImageIsNotAudio | src/pdk/types.rs:86-116 | encoded image content is refused by the audio decoder with an `"audio"`/`"image"` mismatch |
| Content.TextContentRejectsImageTag | src/pdk/types.rs:1707-1740 | a text-shaped object tagged `"image"` is refused by the text decoder with a mismatch |
| Content.ContentBlockUntypedNonEmptyFails | src/pdk/types.rs:325-335 | a non-empty object without `type` matches no content block |
| Content.EncodeSamplingMessage | src/pdk/types.rs:1475-1483 | each variant is written as its own object, tagged `audio`, `image` or `text`; only `Empty` is written as `{}` |
| Content.SamplingMessageRoundTrip | src/pdk/types.rs:1475-1489 | every sampling-message variant is read back as the same variant |
| Content.SamplingMessagePicksAudio | src/pdk/types.rs:1475-1483 | whatever decodes as audio content decodes as the `Audio` message |
| Content.SamplingMessagePicksImage | src/pdk/types.rs:1475-1483 | whatever decodes as image content decodes as the `Image` message |
| Content.SamplingMessagePicksText | src/pdk/types.rs:1475-1483 | whatever decodes as text content decodes as the `Text` message |
| Content.SamplingMessagePicksEmpty | src/pdk/types.rs:1485-1489 | `{}` decodes as the `Empty` default message |
| Content.SamplingMessageUntypedNonEmptyFails | src/pdk/types.rs:1475-1483 | a non-empty object without `type` matches no sampling message |
| References.EncodePromptReference | src/pdk/types.rs:1099-1120 | a prompt reference always carries `type: "prompt"` and `name` |
| References.DecodePromptReference | src/pdk/types.rs:1122-1150 | a prompt reference decodes only from an object tagged `"prompt"` |
| References.PromptReferenceRoundTrip | src/pdk/types.rs:1089-1150 | a prompt reference round-trips |
| References.PromptReferenceIgnoresUnknownMembers | src/pdk/types.rs:1127-1143 | an unknown member is ignored under the `"prompt"` tag, and the same object tagged `"resource"` is refused with a mismatch |
| References.EncodeResourceTemplateReference | src/pdk/types.rs:1402-1420 | a template reference always carries `type: "resource"` |
| References.DecodeResourceTemplateReference | src/pdk/types.rs:1422-1444 | a template reference decodes only from an object tagged `"resource"` |
| References.ResourceTemplateReferenceRoundTrip | src/pdk/types.rs:1395-1444 | a template reference round-trips |
| References.EncodeReference | src/pdk/types.rs:1174-1181 | `Prompt` is written tagged `prompt`, `ResourceTemplate` tagged `resource`; only `Empty` is written as `{}` |
| References.ReferencePicksPrompt | src/pdk/types.rs:1174-1181 | whatever decodes as a prompt reference decodes as `Prompt`, the first variant tried |
| References.ReferencePicksResourceTemplate | src/pdk/types.rs:1174-1181 | whatever decodes as a template reference decodes as `ResourceTemplate` |
| References.ReferenceRoundTrip | src/pdk/types.rs:1174-1187 | every reference variant is read back as the same variant |
| References.EmptyObjectIsDefaultReference | src/pdk/types.rs:1183-1187 | `{}` decodes as the `Empty` default reference |
| References.UntypedReferenceFails | src/pdk/types.rs:1174-1181 | a non-empty object without `type` matches no reference |
| Schemas.EncodeBooleanSchema | src/pdk/types.rs:153-178 | a boolean schema always carries `type: "boolean"` |
| Schemas.DecodeBooleanSchema | src/pdk/types.rs:180-214 | a boolean schema decodes only from an object tagged `"boolean"` |
| Schemas.BooleanSchemaRoundTrip | src/pdk/types.rs:140-214 | a boolean schema round-trips |
| Schemas.EncodeEnumSchema | src/pdk/types.rs:614-642 | an enum schema always carries `type: "string"` and `enum` |
| Schemas.DecodeEnumSchema | src/pdk/types.rs:644-681 | an enum schema decodes only from a `"string"`-tagged object with `enum` |
| Schemas.EnumSchemaRoundTrip | src/pdk/types.rs:598-681 | an enum schema round-trips |
| Schemas.DecodeNumberType | src/pdk/types.rs:955-963 | a number type decodes exactly from `"number"` or `"integer"` |
| Schemas.NumberTypeRoundTrip | src/pdk/types.rs:955-963 | both number types round-trip |
| Schemas.EncodeNumberSchema | src/pdk/types.rs:929-953 | a number schema writes its number type under `type` |
| Schemas.DecodeNumberSchema | src/pdk/types.rs:929-953 | a number schema needs `type`, and it must be `"number"` or `"integer"` |
| Schemas.NumberSchemaRoundTrip | src/pdk/types.rs:929-963 | a number schema round-trips |
| Schemas.DecodeStringSchemaFormat | src/pdk/types.rs:1653-1665 | a format decodes exactly from `"email"`, `"uri"`, `"date"` or `"date_time"` |
| Schemas.StringSchemaFormatRoundTrip | src/pdk/types.rs:1653-1665 | every format round-trips |
| Schemas.EncodeStringSchema | src/pdk/types.rs:1572-1605 | a string schema always carries `type: "string"` and never `enum` |
| Schemas.DecodeStringSchema | src/pdk/types.rs:1607-1651 | a string schema decodes only from an object tagged `"string"` |
| Schemas.StringSchemaRoundTrip | src/pdk/types.rs:1554-1651 | a string schema round-trips |
| Schemas.StringSchemaMembersOk | src/pdk/types.rs:1643-1650 | when each member reads back, the string schema's members decode to the original schema |
| Schemas.EncodePrimitiveSchemaDefinition | src/pdk/types.rs:998-1007 | `Boolean` is tagged `boolean`, `Number` `number` or `integer`, `Enum` and `String` `string` with and without `enum`; only `Empty` is written as `{}` |
| Schemas.PrimitiveSchemaPicksBoolean | src/pdk/types.rs:1001-1007 | whatever decodes as a boolean schema decodes as that variant |
| Schemas.PrimitiveSchemaPicksEnum | src/pdk/types.rs:1001-1007 | whatever decodes as an enum schema decodes as `Enum` |
| Schemas.PrimitiveSchemaPicksNumber | src/pdk/types.rs:1001-1007 | whatever decodes as a number schema decodes as `Number` |
| Schemas.PrimitiveSchemaPicksString | src/pdk/types.rs:1001-1007 | whatever decodes as a string schema but not as an enum schema decodes as `String` |
| Schemas.PrimitiveSchemaPicksEmpty | src/pdk/types.rs:1009-1013 | `{}` decodes as the `Empty` default |
| Schemas.PrimitiveSchemaDefinitionRoundTrip | src/pdk/types.rs:998-1013 | every primitive-schema variant is read back as the same variant |
| Schemas.StringTaggedWithEnumIsEnum | src/pdk/types.rs:1001-1007 | `{"type":"string","enum":[…]}` also decodes as a string schema, yet the union yields `Enum`, which is tried first |
| Schemas.EncodeSchema | src/pdk/types.rs:1501-1522 | an object schema always carries `type: "object"` and `properties` |
| Schemas.DecodeSchema | src/pdk/types.rs:1524-1552 | an object schema decodes only from an object tagged `"object"` with `properties` |
| Schemas.SchemaRoundTrip | src/pdk/types.rs:1491-1552 | an object schema round-trips |
| Elicitation.ElicitationVariantMembers | src/pdk/types.rs:441-464 | a variant's own members never include `mode` |
| Elicitation.EncodeElicitationRequestParam | src/pdk/types.rs:441-464 | the encoding carries `mode`: `"form"` for `Form`, `"url"` for `Url` |
| Elicitation.DecodeElicitationRequestParam | src/pdk/types.rs:441-464 | a missing `mode` is `MissingField("mode")`; an unknown mode string is an unknown variant; a success has the `mode` of the variant returned |
| Elicitation.ElicitationRequestParamRoundTrip | src/pdk/types.rs:441-473 | both variants round-trip |
| Elicitation.ModeDecidesVariant | src/pdk/types.rs:441-464 | a form-shaped object with `mode: "url"` is read as `Url` and fails on the missing `elicitationId` |
| Elicitation.EncodeWithTimeout | src/pdk/types.rs:475-485 | the flattened request's members sit beside `timeout`, which is present exactly when set |
| Elicitation.VariantIndexAsName | src/pdk/types.rs:441-485 | on the buffered path of a flattened field, a `mode` of `0` names `form` and `1` names `url`; all other members and tags are unchanged |
| Elicitation.DecodeWithTimeout | src/pdk/types.rs:475-485 | the inner request is read from the members other than `timeout`, through the buffered copy; a success's `mode` names the variant returned, by string or by index |
| Elicitation.IndexTagOnlyWhenFlattened | src/pdk/types.rs:441-485 | a form request tagged `0` is refused on its own, because the tag must be a string, but read as `Form` inside the timeout wrapper |
| Elicitation.WithTimeoutRoundTrip | src/pdk/types.rs:475-485 | the request with its timeout round-trips |
| Elicitation.DecodeAction | src/pdk/types.rs:498-508 | an action decodes exactly from `"accept"`, `"decline"` or `"cancel"` |
| Elicitation.ActionRoundTrip | src/pdk/types.rs:498-508 | every action round-trips |
| Elicitation.DecodeNumber | src/pdk/types.rs:515 | a JSON number accepts exactly integers and non-integers |
| Elicitation.DecodeContentValue | src/pdk/types.rs:510-517 | a content value decodes exactly from a string, a number or a boolean; anything else matches no variant |
| Elicitation.ContentValueRoundTrip | src/pdk/types.rs:510-517 | every content value round-trips |
| Elicitation.EncodeElicitationResult | src/pdk/types.rs:487-496 | `action` is always written; `content` only when present |
| Elicitation.DecodeElicitationResult | src/pdk/types.rs:487-496 | without `action` the result fails with `MissingField("action")` |
| Elicitation.ElicitationResultRoundTrip | src/pdk/types.rs:487-517 | the result round-trips |
| Elicitation.DecodeElicitationResponse | src/pdk/types.rs:431-437 | the response notification decodes exactly when `elicitationId` is a string |
| Elicitation.ElicitationResponseRoundTrip | src/pdk/types.rs:431-437 | the response notification round-trips |
| Tools.EncodeToolAnnotations | src/pdk/types.rs:1794-1815 | each hint and the title is written exactly when set, and no other member is written |
| Tools.DecodeToolAnnotations | src/pdk/types.rs:1794-1815 | decoding succeeds exactly on objects whose present, non-`null` hints are booleans and whose title is a string; a field is `None` exactly when its key is missing or `null`; `{}` gives every field unset |
| Tools.ToolAnnotationsRoundTrip | src/pdk/types.rs:1794-1815 | tool annotations round-trip |
| Tools.DecodeJsonSchema | src/pdk/types.rs:1777-1786 | a schema decodes exactly from a boolean or an object, unchanged |
| Tools.JsonSchemaRoundTrip | src/pdk/types.rs:1777-1786 | a schema is never written as `null` and reads back as itself |
| Tools.EncodeTool | src/pdk/types.rs:1764-1792 | a tool always carries `inputSchema` and `name`, and `outputSchema` exactly when set |
| Tools.DecodeTool | src/pdk/types.rs:1764-1792 | a tool requires `inputSchema` and `name`; an input schema that is neither a boolean nor an object is refused, and an accepted one is kept unchanged |
| Tools.ToolRoundTrip | src/pdk/types.rs:1764-1792 | every tool round-trips |
| Tools.NullOutputSchemaIsAbsent | src/pdk/types.rs:1783-1786 | `"outputSchema": null` decodes exactly as if the member were missing, giving no output schema |
| Tools.ToolsRoundTrip | src/pdk/types.rs:859-864 | every list of tools round-trips |
| Tools.DecodeToolChoiceMode | src/pdk/types.rs:1825-1835 | a mode decodes exactly from `"auto"`, `"required"` or `"none"` |
| Tools.ToolChoiceModeRoundTrip | src/pdk/types.rs:1825-1835 | every mode round-trips |
| Tools.EncodeToolChoice | src/pdk/types.rs:1817-1823 | `mode` is written exactly when set |
| Tools.ToolChoiceRoundTrip | src/pdk/types.rs:1817-1835 | the tool choice round-trips |
| Tools.EncodeCallToolRequestParam | src/pdk/types.rs:224-234 | `name` is always written; `arguments` exactly when set |
| Tools.DecodeCallToolRequestParam | src/pdk/types.rs:224-234 | without `name` the request fails |
| Tools.CallToolRequestParamRoundTrip | src/pdk/types.rs:224-234 | the call parameters round-trip |
| Tools.DecodeCallToolRequest | src/pdk/types.rs:216-222 | a call request needs both `context` and `request` |
| Tools.CallToolRequestRoundTrip | src/pdk/types.rs:216-234 | the call request round-trips |
| Tools.ContentBlocksRoundTrip | src/pdk/types.rs:245-246 | a list of content blocks round-trips |
| Tools.EncodeCallToolResult | src/pdk/types.rs:236-259 | `content` is always written, even when empty; the other keys are exactly those of the options that are set |
| Tools.DecodeCallToolResult | src/pdk/types.rs:236-259 | `content` is required; a missing `isError` stays unset |
| Tools.CallToolResultRoundTrip | src/pdk/types.rs:236-259 | the call result round-trips |
| Tools.ContentOnlyResult | src/pdk/types.rs:236-259 | a result with only an empty content list is written as `{"content": []}` |
| Tools.DecodeListToolsRequest | src/pdk/types.rs:853-857 | a list-tools request needs `context` and carries it |
| Tools.ListToolsRequestRoundTrip | src/pdk/types.rs:853-857 | the list-tools request round-trips |
| Tools.DecodeListToolsResult | src/pdk/types.rs:859-864 | a list-tools result needs `tools` and carries their decoding |
| Tools.ListToolsResultRoundTrip | src/pdk/types.rs:859-864 | the list-tools result round-trips |
| Completion.DecodeArgument | src/pdk/types.rs:282-290 | an argument decodes exactly when `name` and `value` are strings |
| Completion.ArgumentRoundTrip | src/pdk/types.rs:282-290 | an argument round-trips |
| Completion.EncodeCompletionContext | src/pdk/types.rs:292-299 | `arguments` is written exactly when set |
| Completion.DecodeCompletionContext | src/pdk/types.rs:292-299 | decoding succeeds exactly on objects whose `arguments`, when present and not `null`, is a string map; the arguments are `None` exactly when the key is missing or `null`, and otherwise are that map |
| Completion.CompletionContextRoundTrip | src/pdk/types.rs:292-299 | the context round-trips |
| Completion.EncodeCompleteRequestParam | src/pdk/types.rs:269-280 | `argument` and `ref` are always written |
| Completion.DecodeCompleteRequestParam | src/pdk/types.rs:269-280 | `ref` is required, with no fallback to the union's default; a success carries the decoding of `ref` |
| Completion.CompleteRequestParamRoundTrip | src/pdk/types.rs:269-280 | the completion parameters round-trip |
| Completion.DecodeCompleteRequest | src/pdk/types.rs:261-267 | a completion request needs `context` and `request` |
| Completion.CompleteRequestRoundTrip | src/pdk/types.rs:261-280 | the completion request round-trips |
| Completion.EncodeCompletion | src/pdk/types.rs:307-323 | `values` is always written, as the list of strings |
| Completion.DecodeCompletion | src/pdk/types.rs:307-323 | `values` is required; a `total` is an in-range integer read unchanged |
| Completion.CompletionRoundTrip | src/pdk/types.rs:307-323 | the completion round-trips |
| Completion.DecodeCompleteResult | src/pdk/types.rs:301-305 | a completion result needs `completion` and carries its decoding |
| Completion.CompleteResultRoundTrip | src/pdk/types.rs:301-323 | the completion result round-trips |
| Sampling.DecodeModelHint | src/pdk/types.rs:904-909 | a hint decodes exactly when `name` is a string |
| Sampling.ModelHintRoundTrip | src/pdk/types.rs:904-909 | a hint round-trips |
| Sampling.EncodeModelPreferences | src/pdk/types.rs:911-927 | the preferences are written under exactly `cost_priority`, `hints`, `intelligencePriority` and `speedPriority` |
| Sampling.DecodeModelPreferences | src/pdk/types.rs:911-927 | the cost priority is read from `cost_priority`, which is required |
| Sampling.ModelPreferencesRoundTrip | src/pdk/types.rs:911-927 | the preferences round-trip |
| Sampling.DecodeIncludeContext | src/pdk/types.rs:399-409 | include-context decodes exactly from `"none"`, `"thisServer"` or `"allServers"` |
| Sampling.IncludeContextRoundTrip | src/pdk/types.rs:399-409 | every include-context value round-trips |
| Sampling.SamplingMessagesRoundTrip | src/pdk/types.rs:356 | a list of sampling messages round-trips |
| Sampling.CreateMessageRequestParamEntries | src/pdk/types.rs:343-397 | the request writes eleven members under distinct keys |
| Sampling.DecodeCreateMessageRequestParam | src/pdk/types.rs:343-397 | `maxTokens` and `messages` are required; a `null` metadata reads as absent |
| Sampling.CreateMessageRequestParamRoundTrip | src/pdk/types.rs:343-397 | the request round-trips unless its metadata is JSON `null` |
| Sampling.CreateMessageRequestParamLeadingMembers | src/pdk/types.rs:346-360 | `includeContext`, `maxTokens`, `messages` and `metadata` read back from the encoding as written |
| Sampling.CreateMessageRequestParamMiddleMembers | src/pdk/types.rs:362-382 | `modelPreferences`, `stopSequences`, `systemPrompt` and `task` read back from the encoding as written |
| Sampling.CreateMessageRequestParamTrailingMembers | src/pdk/types.rs:384-396 | `temperature`, `toolChoice` and `tools` read back from the encoding as written |
| Sampling.CreateMessageRequestParamMembersOk | src/pdk/types.rs:343-397 | when each member reads back, the request's members decode to the original request |
| Sampling.NullMetadataIsLost | src/pdk/types.rs:358-360 | a request whose metadata is JSON `null` reads back with no metadata |
| Sampling.EncodeCreateMessageResult | src/pdk/types.rs:411-427 | `content`, `model` and `role` are always written |
| Sampling.DecodeCreateMessageResult | src/pdk/types.rs:411-427 | `content`, `model` and `role` are required; the content is the sampling-message decoding |
| Sampling.CreateMessageResultRoundTrip | src/pdk/types.rs:411-427 | the result round-trips |
| Prompts.EncodePromptArgument | src/pdk/types.rs:1058-1078 | `name` is always written; `required` exactly when set |
| Prompts.DecodePromptArgument | src/pdk/types.rs:1058-1078 | `name` is required; a missing `required` stays unset |
| Prompts.PromptArgumentRoundTrip | src/pdk/types.rs:1058-1078 | a prompt argument round-trips |
| Prompts.PromptArgumentsRoundTrip | src/pdk/types.rs:1039-1042 | a list of prompt arguments round-trips |
| Prompts.EncodePrompt | src/pdk/types.rs:1036-1056 | `name` is always written; `arguments` exactly when set |
| Prompts.DecodePrompt | src/pdk/types.rs:1036-1056 | `name` is required |
| Prompts.PromptRoundTrip | src/pdk/types.rs:1036-1056 | a prompt round-trips |
| Prompts.PromptsRoundTrip | src/pdk/types.rs:812-817 | a list of prompts round-trips |
| Prompts.DecodePromptMessage | src/pdk/types.rs:1080-1087 | `content` and `role` are both required and carry their decodings |
| Prompts.PromptMessageRoundTrip | src/pdk/types.rs:1080-1087 | a prompt message round-trips |
| Prompts.PromptMessageWithoutRoleFails | src/pdk/types.rs:1080-1087 | a message with content but no role fails with `MissingField("role")` |
| Prompts.PromptMessagesRoundTrip | src/pdk/types.rs:703-713 | a list of prompt messages round-trips |
| Prompts.EncodeGetPromptRequestParam | src/pdk/types.rs:691-701 | `name` is always written; `arguments` exactly when set |
| Prompts.DecodeGetPromptRequestParam | src/pdk/types.rs:691-701 | `name` is required; set arguments are the decoding of `arguments` |
| Prompts.GetPromptRequestParamRoundTrip | src/pdk/types.rs:691-701 | the get-prompt parameters round-trip |
| Prompts.DecodeGetPromptRequest | src/pdk/types.rs:683-689 | a get-prompt request needs `context` and `request` |
| Prompts.GetPromptRequestRoundTrip | src/pdk/types.rs:683-701 | the get-prompt request round-trips |
| Prompts.EncodeGetPromptResult | src/pdk/types.rs:703-713 | `messages` is always written; `description` exactly when set |
| Prompts.DecodeGetPromptResult | src/pdk/types.rs:703-713 | `messages` is required and carries its decoding |
| Prompts.GetPromptResultRoundTrip | src/pdk/types.rs:703-713 | the get-prompt result round-trips |
| Prompts.DecodeListPromptsRequest | src/pdk/types.rs:806-810 | a list-prompts request needs `context` |
| Prompts.ListPromptsRequestRoundTrip | src/pdk/types.rs:806-810 | the list-prompts request round-trips |
| Prompts.DecodeListPromptsResult | src/pdk/types.rs:812-817 | a list-prompts result needs `prompts` |
| Prompts.ListPromptsResultRoundTrip | src/pdk/types.rs:812-817 | the list-prompts result round-trips |
| Resources.ResourceEntries | src/pdk/types.rs:1189-1223 | a resource writes seven members under distinct keys |
| Resources.DecodeResource | src/pdk/types.rs:1189-1223 | `name` and `uri` are required strings; a `size` is an in-range integer read unchanged |
| Resources.ResourceRoundTrip | src/pdk/types.rs:1189-1223 | a resource round-trips |
| Resources.ResourceMembersOk | src/pdk/types.rs:1189-1223 | when each member reads back, the resource's members decode to the original resource |
| Resources.EncodeResource | src/pdk/types.rs:1189-1223 | `name` and `uri` are always written with their values; each optional member exactly when set |
| Resources.BareResourceEncoding | src/pdk/types.rs:1189-1223 | a resource with every option unset is written as exactly `name` and `uri` |
| Resources.ResourcesRoundTrip | src/pdk/types.rs:825-830 | a list of resources round-trips |
| Resources.EncodeResourceTemplate | src/pdk/types.rs:1364-1393 | `name` and `uriTemplate` are always written |
| Resources.DecodeResourceTemplate | src/pdk/types.rs:1364-1393 | `uriTemplate` is required |
| Resources.ResourceTemplateRoundTrip | src/pdk/types.rs:1364-1393 | a resource template round-trips |
| Resources.ResourceTemplatesRoundTrip | src/pdk/types.rs:838-844 | a list of templates round-trips |
| Resources.DecodeReadResourceRequestParam | src/pdk/types.rs:1160-1165 | the parameters decode exactly when `uri` is a string |
| Resources.ReadResourceRequestParamRoundTrip | src/pdk/types.rs:1160-1165 | the read-resource parameters round-trip |
| Resources.DecodeReadResourceRequest | src/pdk/types.rs:1152-1158 | a read-resource request needs `context` and `request` |
| Resources.ReadResourceRequestRoundTrip | src/pdk/types.rs:1152-1165 | the read-resource request round-trips |
| Resources.ResourceContentsListRoundTrip | src/pdk/types.rs:1167-1172 | a list of resource contents round-trips |
| Resources.DecodeReadResourceResult | src/pdk/types.rs:1167-1172 | a read-resource result needs `contents` |
| Resources.ReadResourceResultRoundTrip | src/pdk/types.rs:1167-1172 | the read-resource result round-trips |
| Resources.DecodeListResourcesRequest | src/pdk/types.rs:819-823 | a list-resources request needs `context` |
| Resources.ListResourcesRequestRoundTrip | src/pdk/types.rs:819-823 | the list-resources request round-trips |
| Resources.DecodeListResourcesResult | src/pdk/types.rs:825-830 | a list-resources result needs `resources` |
| Resources.ListResourcesResultRoundTrip | src/pdk/types.rs:825-830 | the list-resources result round-trips |
| Resources.DecodeListResourceTemplatesRequest | src/pdk/types.rs:832-836 | a list-templates request needs `context` |
| Resources.ListResourceTemplatesRequestRoundTrip | src/pdk/types.rs:832-836 | the list-templates request round-trips |
| Resources.DecodeListResourceTemplatesResult | src/pdk/types.rs:838-844 | the templates are read from `resourceTemplates`, which is required |
| Resources.ListResourceTemplatesResultRoundTrip | src/pdk/types.rs:838-844 | the list-templates result round-trips |
| Resources.DecodeResourceUpdatedNotificationParam | src/pdk/types.rs:1446-1451 | the notification decodes exactly when `uri` is a string |
| Resources.ResourceUpdatedNotificationParamRoundTrip | src/pdk/types.rs:1446-1451 | the update notification round-trips |
| Resources.EncodeRoot | src/pdk/types.rs:1463-1473 | `uri` is always written; `name` exactly when set |
| Resources.DecodeRoot | src/pdk/types.rs:1463-1473 | `uri` is required; a missing `name` stays unset |
| Resources.RootRoundTrip | src/pdk/types.rs:1463-1473 | a root round-trips |
| Resources.RootsRoundTrip | src/pdk/types.rs:846-851 | a list of roots round-trips |
| Resources.DecodeListRootsResult | src/pdk/types.rs:846-851 | a list-roots result needs `roots` |
| Resources.ListRootsResultRoundTrip | src/pdk/types.rs:846-851 | the list-roots result round-trips |
| Notifications.DecodeLoggingLevel | src/pdk/types.rs:866-886 | a level decodes exactly from one of the eight lower-case names, to the level of that name; any other string is an unknown variant |
| Notifications.LoggingLevelRoundTrip | src/pdk/types.rs:866-886 | every level round-trips |
| Notifications.EncodeLoggingMessage | src/pdk/types.rs:888-900 | `data` is written as given; `logger` exactly when set |
| Notifications.DecodeLoggingMessage | src/pdk/types.rs:888-900 | `data` is required and taken as is, `null` included; `level` is required |
| Notifications.LoggingMessageRoundTrip | src/pdk/types.rs:888-900 | the logging message round-trips |
| Notifications.EncodeProgress | src/pdk/types.rs:1015-1034 | `progress` and `progressToken` are always written; `message` and `total` exactly when set |
| Notifications.DecodeProgress | src/pdk/types.rs:1015-1034 | `progressToken` is a required string and `progress` a required number |
| Notifications.ProgressRoundTrip | src/pdk/types.rs:1015-1034 | the progress notification round-trips |
| Notifications.DecodeKeyringEntryId | src/pdk/types.rs:799-804 | a keyring entry id decodes exactly when `service` and `user` are strings, and holds them |
| Notifications.KeyringEntryIdRoundTrip | src/pdk/types.rs:799-804 | a keyring entry id round-trips |

## Left out

- The byte transport to the host (`FromBytes`/`ToBytes`, `#[encoding(Json)]`) is not modelled. The model begins at the parsed JSON value.
- JSON text parsing and printing are not modelled.
- Object member order is not modelled. Objects are maps, so output key order does not exist in the model.
- serde also accepts a struct written as a positional array, and a unit enum variant written as `{"variant": null}`. The model accepts neither form.
- `Base64Standard` is declared in `src/pdk/types.rs:10` but attached to no field. So `data` and `blob` stay plain strings and nothing checks base64.
- `Annotations.lastModified` is kept as an opaque string: timestamp parsing belongs to the date-time library, which is not part of this model.
- `Tool.inputSchema` and `Tool.outputSchema` are opaque JSON values restricted to a boolean or an object. The schema library's other checks are not part of this model.
- Floating-point fields are modelled as `real`:
  - the annotation and model-preference priorities;
  - the number-schema bounds;
  - the temperature;
  - the progress values.
  The model keeps the presence policy and the rule that any JSON number is accepted. It does not model rounding, `f32` precision, NaN or infinities.
- An `ElicitationResultContentValue` number is an integer or a `real`. The exact range and precision of `serde_json::Number` are not modelled.
- Error messages are not modelled. Errors are a datatype: missing field, type mismatch carrying the type name, expected and found tags, unknown variant, unknown fields, or "no variant matched".
- When several members of one object are wrong at once, the model reports the first in field-declaration order. serde may report another one; the lemmas only state which kind of error arises where a single member is at fault.
- The model does not enforce any of these limits, because the code does not enforce them:
  - the 100-value cap on completion values;
  - the 0–1 ranges of the priorities.
- Sampling.CreateMessageRequestParamRoundTrip: requires that `metadata` is not JSON `null`. An `Option<Value>` holding `null` is written as `null` and read back as `None`; `Sampling.NullMetadataIsLost` states what happens instead.
- The `Default` impls of the non-union structs are left out. Rust uses them only to construct values; no decode path uses them, because missing non-`Option` fields fail.
