/**
 * Content blocks: the five tagged content structs, the resource contents they
 * embed, and the two untagged unions built from them (`ContentBlock` and
 * `SamplingMessage`). Wire keys follow the serde renames: `meta` is `_meta`,
 * `mime_type` is `mimeType`, `last_modified` is `lastModified`.
 */
module Content {
  import opened Json
  import opened Codec

  // ---------------------------------------------------------------------
  // Role and Annotations

  datatype Role = Assistant | User

  function EncodeRole(r: Role): Json {
    match r
    case Assistant => JStr("assistant")
    case User => JStr("user")
  }

  /** A unit-variant enum is read from its wire name; any other string is an unknown variant. */
  function DecodeRole(j: Json): (r: Result<Role>)
    ensures r.Ok? <==> j == JStr("assistant") || j == JStr("user")
  {
    var s :- DecodeString(j);
    if s == "assistant" then Ok(Assistant)
    else if s == "user" then Ok(User)
    else Err(UnknownVariant(s))
  }

  lemma RoleRoundTrip(r: Role)
    ensures DecodeRole(EncodeRole(r)) == Ok(r)
  {
  }

  /**
   * `Annotations`. `last_modified` is a `chrono` timestamp, kept here as its
   * wire string; `priority` is an `f32`, kept as a real number.
   */
  datatype Annotations = Annotations(audience: seq<Role>, lastModified: string, priority: real)

  /** All three fields are non-`Option`, so all three members are always written. */
  function EncodeAnnotations(a: Annotations): (j: Json)
    ensures j.JObj? && j.fields.Keys == {"audience", "lastModified", "priority"}
    ensures j.fields["audience"] == EncodeSeq(a.audience, EncodeRole)
    ensures j.fields["lastModified"] == JStr(a.lastModified) && j.fields["priority"] == JFloat(a.priority)
  {
    JObj(map[
      "audience" := EncodeSeq(a.audience, EncodeRole),
      "lastModified" := JStr(a.lastModified),
      "priority" := JFloat(a.priority)])
  }

  function DecodeRoles(j: Json): Result<seq<Role>> { DecodeSeq(j, DecodeRole) }

  /** No field has a serde default: all three members are required. */
  function DecodeAnnotations(j: Json): (r: Result<Annotations>)
    ensures r.Ok? ==> j.JObj? && "audience" in j.fields && "lastModified" in j.fields && "priority" in j.fields
  {
    var obj :- AsObject(j, "Annotations");
    var audience :- Required(obj, "audience", DecodeRoles);
    var lastModified :- Required(obj, "lastModified", DecodeString);
    var priority :- Required(obj, "priority", DecodeFloat);
    Ok(Annotations(audience, lastModified, priority))
  }

  lemma AnnotationsRoundTrip(a: Annotations)
    ensures DecodeAnnotations(EncodeAnnotations(a)) == Ok(a)
  {
    forall i | 0 <= i < |a.audience| ensures DecodeRole(EncodeRole(a.audience[i])) == Ok(a.audience[i]) {
      RoleRoundTrip(a.audience[i]);
    }
    SeqRoundTrip(a.audience, EncodeRole, DecodeRole);
  }

  /** The `_meta` and `annotations` members shared by the content structs. */
  lemma MetaAndAnnotationsRoundTrip(obj: Object, meta: Option<Object>, annotations: Option<Annotations>)
    requires meta.None? ==> "_meta" !in obj
    requires meta.Some? ==> "_meta" in obj && obj["_meta"] == EncodeObject(meta.value)
    requires annotations.None? ==> "annotations" !in obj
    requires annotations.Some? ==> "annotations" in obj && obj["annotations"] == EncodeAnnotations(annotations.value)
    ensures Optional(obj, "_meta", DecodeObject) == Ok(meta)
    ensures Optional(obj, "annotations", DecodeAnnotations) == Ok(annotations)
  {
    if meta.Some? { ObjectRoundTrip(meta.value); }
    if annotations.Some? { AnnotationsRoundTrip(annotations.value); }
    OptionalRoundTrip(obj, "_meta", meta, EncodeObject, DecodeObject);
    OptionalRoundTrip(obj, "annotations", annotations, EncodeAnnotations, DecodeAnnotations);
  }

  /** Adds the optional `_meta` and `annotations` members of a content struct. */
  function WithMeta(obj: Object, meta: Option<Object>, annotations: Option<Annotations>): Object {
    WithOptional(WithOptional(obj, "_meta", meta, EncodeObject), "annotations", annotations, EncodeAnnotations)
  }

  // ---------------------------------------------------------------------
  // AudioContent and ImageContent (tags "audio" and "image")

  /** `data` is a plain string: no base64 check is attached to it. */
  datatype AudioContent = AudioContent(meta: Option<Object>, annotations: Option<Annotations>, data: string, mimeType: string)

  function EncodeAudioContent(x: AudioContent): (j: Json)
    ensures HasTag(j, "audio")
  {
    Tagged(WithMeta(map["data" := JStr(x.data), "mimeType" := JStr(x.mimeType)], x.meta, x.annotations), "audio")
  }

  function AudioContentMembers(obj: Object): Result<AudioContent> {
    var meta :- Optional(obj, "_meta", DecodeObject);
    var annotations :- Optional(obj, "annotations", DecodeAnnotations);
    var data :- Required(obj, "data", DecodeString);
    var mimeType :- Required(obj, "mimeType", DecodeString);
    Ok(AudioContent(meta, annotations, data, mimeType))
  }

  function DecodeAudioContent(j: Json): (r: Result<AudioContent>)
    ensures r.Ok? ==> HasTag(j, "audio")
  {
    DecodeTagged(j, "AudioContent", "audio", AudioContentMembers)
  }

  lemma AudioContentRoundTrip(x: AudioContent)
    ensures DecodeAudioContent(EncodeAudioContent(x)) == Ok(x)
  {
    var obj := EncodeAudioContent(x).fields;
    MetaAndAnnotationsRoundTrip(obj, x.meta, x.annotations);
  }

  datatype ImageContent = ImageContent(meta: Option<Object>, annotations: Option<Annotations>, data: string, mimeType: string)

  function EncodeImageContent(x: ImageContent): (j: Json)
    ensures HasTag(j, "image")
  {
    Tagged(WithMeta(map["data" := JStr(x.data), "mimeType" := JStr(x.mimeType)], x.meta, x.annotations), "image")
  }

  function ImageContentMembers(obj: Object): Result<ImageContent> {
    var meta :- Optional(obj, "_meta", DecodeObject);
    var annotations :- Optional(obj, "annotations", DecodeAnnotations);
    var data :- Required(obj, "data", DecodeString);
    var mimeType :- Required(obj, "mimeType", DecodeString);
    Ok(ImageContent(meta, annotations, data, mimeType))
  }

  function DecodeImageContent(j: Json): (r: Result<ImageContent>)
    ensures r.Ok? ==> HasTag(j, "image")
  {
    DecodeTagged(j, "ImageContent", "image", ImageContentMembers)
  }

  lemma ImageContentRoundTrip(x: ImageContent)
    ensures DecodeImageContent(EncodeImageContent(x)) == Ok(x)
  {
    var obj := EncodeImageContent(x).fields;
    MetaAndAnnotationsRoundTrip(obj, x.meta, x.annotations);
  }

  // ---------------------------------------------------------------------
  // TextContent (tag "text")

  datatype TextContent = TextContent(meta: Option<Object>, annotations: Option<Annotations>, text: string)

  function EncodeTextContent(x: TextContent): (j: Json)
    ensures HasTag(j, "text")
  {
    Tagged(WithMeta(map["text" := JStr(x.text)], x.meta, x.annotations), "text")
  }

  function TextContentMembers(obj: Object): Result<TextContent> {
    var meta :- Optional(obj, "_meta", DecodeObject);
    var annotations :- Optional(obj, "annotations", DecodeAnnotations);
    var text :- Required(obj, "text", DecodeString);
    Ok(TextContent(meta, annotations, text))
  }

  function DecodeTextContent(j: Json): (r: Result<TextContent>)
    ensures r.Ok? ==> HasTag(j, "text")
  {
    DecodeTagged(j, "TextContent", "text", TextContentMembers)
  }

  lemma TextContentRoundTrip(x: TextContent)
    ensures DecodeTextContent(EncodeTextContent(x)) == Ok(x)
  {
    var obj := EncodeTextContent(x).fields;
    MetaAndAnnotationsRoundTrip(obj, x.meta, x.annotations);
  }

  // ---------------------------------------------------------------------
  // Resource contents (untagged: told apart by `blob` versus `text`)

  /** `blob` is a plain string: no base64 check is attached to it. */
  datatype BlobResourceContents = BlobResourceContents(meta: Option<Object>, blob: string, mimeType: Option<string>, uri: string)

  function EncodeBlobResourceContents(x: BlobResourceContents): (j: Json)
    ensures j.JObj? && "blob" in j.fields && "uri" in j.fields && TypeKey !in j.fields
  {
    var obj := map["blob" := JStr(x.blob), "uri" := JStr(x.uri)];
    JObj(WithOptional(WithOptional(obj, "_meta", x.meta, EncodeObject), "mimeType", x.mimeType, EncodeString))
  }

  function DecodeBlobResourceContents(j: Json): (r: Result<BlobResourceContents>)
    ensures r.Ok? ==> j.JObj? && "blob" in j.fields && "uri" in j.fields
  {
    var obj :- AsObject(j, "BlobResourceContents");
    var meta :- Optional(obj, "_meta", DecodeObject);
    var blob :- Required(obj, "blob", DecodeString);
    var mimeType :- Optional(obj, "mimeType", DecodeString);
    var uri :- Required(obj, "uri", DecodeString);
    Ok(BlobResourceContents(meta, blob, mimeType, uri))
  }

  lemma BlobResourceContentsRoundTrip(x: BlobResourceContents)
    ensures DecodeBlobResourceContents(EncodeBlobResourceContents(x)) == Ok(x)
  {
    var obj := EncodeBlobResourceContents(x).fields;
    if x.meta.Some? { ObjectRoundTrip(x.meta.value); }
    OptionalRoundTrip(obj, "_meta", x.meta, EncodeObject, DecodeObject);
    OptionalRoundTrip(obj, "mimeType", x.mimeType, EncodeString, DecodeString);
  }

  datatype TextResourceContents = TextResourceContents(meta: Option<Object>, mimeType: Option<string>, text: string, uri: string)

  function EncodeTextResourceContents(x: TextResourceContents): (j: Json)
    ensures j.JObj? && "blob" !in j.fields && "text" in j.fields && "uri" in j.fields && TypeKey !in j.fields
  {
    var obj := map["text" := JStr(x.text), "uri" := JStr(x.uri)];
    JObj(WithOptional(WithOptional(obj, "_meta", x.meta, EncodeObject), "mimeType", x.mimeType, EncodeString))
  }

  function DecodeTextResourceContents(j: Json): (r: Result<TextResourceContents>)
    ensures r.Ok? ==> j.JObj? && "text" in j.fields && "uri" in j.fields
  {
    var obj :- AsObject(j, "TextResourceContents");
    var meta :- Optional(obj, "_meta", DecodeObject);
    var mimeType :- Optional(obj, "mimeType", DecodeString);
    var text :- Required(obj, "text", DecodeString);
    var uri :- Required(obj, "uri", DecodeString);
    Ok(TextResourceContents(meta, mimeType, text, uri))
  }

  lemma TextResourceContentsRoundTrip(x: TextResourceContents)
    ensures DecodeTextResourceContents(EncodeTextResourceContents(x)) == Ok(x)
  {
    var obj := EncodeTextResourceContents(x).fields;
    if x.meta.Some? { ObjectRoundTrip(x.meta.value); }
    OptionalRoundTrip(obj, "_meta", x.meta, EncodeObject, DecodeObject);
    OptionalRoundTrip(obj, "mimeType", x.mimeType, EncodeString, DecodeString);
  }

  /** `#[serde(untagged)] enum ResourceContents { Blob, Text, Empty }`; the default is `Empty`. */
  datatype ResourceContents =
    | Blob(blob: BlobResourceContents)
    | Text(text: TextResourceContents)
    | Empty(empty: Empty)

  function DefaultResourceContents(): ResourceContents { ResourceContents.Empty(Codec.Empty) }

  /** An untagged enum writes its variant's own encoding, with no wrapper; only `Empty` is written as `{}`. */
  function EncodeResourceContents(c: ResourceContents): (j: Json)
    ensures j.JObj? && TypeKey !in j.fields
    ensures c.Empty? <==> j == JObj(map[])
    ensures c.Blob? ==> "blob" in j.fields && "uri" in j.fields
    ensures c.Text? ==> "text" in j.fields && "uri" in j.fields && "blob" !in j.fields
  {
    match c
    case Blob(x) => EncodeBlobResourceContents(x)
    case Text(x) => EncodeTextResourceContents(x)
    case Empty(e) => EncodeEmpty(e)
  }

  function ResourceContentsAttempts(j: Json): seq<Result<ResourceContents>> {
    [ Lift(DecodeBlobResourceContents(j), x => ResourceContents.Blob(x)),
      Lift(DecodeTextResourceContents(j), x => ResourceContents.Text(x)),
      Lift(DecodeEmpty(j), e => ResourceContents.Empty(e)) ]
  }

  function DecodeResourceContents(j: Json): Result<ResourceContents> {
    FirstMatch(ResourceContentsAttempts(j), "ResourceContents")
  }

  lemma {:induction false} ResourceContentsRoundTrip(c: ResourceContents)
    ensures DecodeResourceContents(EncodeResourceContents(c)) == Ok(c)
  {
    var j := EncodeResourceContents(c);
    var cs := ResourceContentsAttempts(j);
    match c
    case Blob(x) =>
      BlobResourceContentsRoundTrip(x);
      FirstMatchAt(cs, "ResourceContents", 0);
    case Text(x) =>
      TextResourceContentsRoundTrip(x);
      assert cs[0].Err?;
      FirstMatchAt(cs, "ResourceContents", 1);
    case Empty(e) =>
      assert cs[0].Err? && cs[1].Err?;
      EmptyRoundTrip(e);
      assert cs[2] == Ok(c);
      FirstMatchAt(cs, "ResourceContents", 2);
  }

  /** Whatever decodes as blob contents decodes as the `Blob` variant, the first one tried. */
  lemma ResourceContentsPicksBlob(j: Json, x: BlobResourceContents)
    requires DecodeBlobResourceContents(j) == Ok(x)
    ensures DecodeResourceContents(j) == Ok(ResourceContents.Blob(x))
  {
    FirstMatchAt(ResourceContentsAttempts(j), "ResourceContents", 0);
  }

  /** Text contents that are not also blob contents decode as the `Text` variant. */
  lemma ResourceContentsPicksText(j: Json, x: TextResourceContents)
    requires DecodeTextResourceContents(j) == Ok(x) && DecodeBlobResourceContents(j).Err?
    ensures DecodeResourceContents(j) == Ok(ResourceContents.Text(x))
  {
    FirstMatchAt(ResourceContentsAttempts(j), "ResourceContents", 1);
  }

  /** `{}` has neither `uri` nor `blob`/`text`, so both struct variants refuse it and it is the `Empty` default. */
  lemma EmptyObjectIsDefaultResourceContents()
    ensures DecodeResourceContents(JObj(map[])) == Ok(DefaultResourceContents())
  {
    var cs := ResourceContentsAttempts(JObj(map[]));
    assert cs[2] == Ok(DefaultResourceContents());
    FirstMatchAt(cs, "ResourceContents", 2);
  }

  /** Without `uri` neither struct variant can match, and any member at all rules out `Empty`: the union fails. */
  lemma ResourceContentsWithoutUriFails(obj: Object)
    requires "uri" !in obj && obj != map[]
    ensures DecodeResourceContents(JObj(obj)) == Err(NoVariantMatched("ResourceContents"))
  {
    var cs := ResourceContentsAttempts(JObj(obj));
    assert cs[0].Err? && cs[1].Err? && cs[2].Err?;
  }

  // ---------------------------------------------------------------------
  // EmbeddedResource (tag "resource")

  datatype EmbeddedResource = EmbeddedResource(meta: Option<Object>, annotations: Option<Annotations>, resource: ResourceContents)

  function EncodeEmbeddedResource(x: EmbeddedResource): (j: Json)
    ensures HasTag(j, "resource")
  {
    Tagged(WithMeta(map["resource" := EncodeResourceContents(x.resource)], x.meta, x.annotations), "resource")
  }

  function EmbeddedResourceMembers(obj: Object): Result<EmbeddedResource> {
    var meta :- Optional(obj, "_meta", DecodeObject);
    var annotations :- Optional(obj, "annotations", DecodeAnnotations);
    var resource :- Required(obj, "resource", DecodeResourceContents);
    Ok(EmbeddedResource.EmbeddedResource(meta, annotations, resource))
  }

  function DecodeEmbeddedResource(j: Json): (r: Result<EmbeddedResource>)
    ensures r.Ok? ==> HasTag(j, "resource")
  {
    DecodeTagged(j, "EmbeddedResource", "resource", EmbeddedResourceMembers)
  }

  lemma EmbeddedResourceRoundTrip(x: EmbeddedResource)
    ensures DecodeEmbeddedResource(EncodeEmbeddedResource(x)) == Ok(x)
  {
    var obj := EncodeEmbeddedResource(x).fields;
    MetaAndAnnotationsRoundTrip(obj, x.meta, x.annotations);
    ResourceContentsRoundTrip(x.resource);
  }

  // ---------------------------------------------------------------------
  // ResourceLink (tag "resource_link")

  datatype ResourceLink = ResourceLink(
    meta: Option<Object>,
    annotations: Option<Annotations>,
    description: Option<string>,
    mimeType: Option<string>,
    name: string,
    size: Option<int64>,
    title: Option<string>,
    uri: string)

  /** The members of a link in declaration order; `name` and `uri` are always written. */
  function ResourceLinkEntries(x: ResourceLink): (es: seq<Entry>)
    ensures |es| == 8 && DistinctKeys(es)
  {
    [ OptionalEntry("_meta", x.meta, EncodeObject),
      OptionalEntry("annotations", x.annotations, EncodeAnnotations),
      OptionalEntry("description", x.description, EncodeString),
      OptionalEntry("mimeType", x.mimeType, EncodeString),
      ("name", Some(JStr(x.name))),
      OptionalEntry("size", x.size, EncodeInt64),
      OptionalEntry("title", x.title, EncodeString),
      ("uri", Some(JStr(x.uri))) ]
  }

  function EncodeResourceLink(x: ResourceLink): (j: Json)
    ensures HasTag(j, "resource_link")
  {
    Tagged(AddEntries(map[], ResourceLinkEntries(x)), "resource_link")
  }

  function ResourceLinkMembers(obj: Object): Result<ResourceLink> {
    var meta :- Optional(obj, "_meta", DecodeObject);
    var annotations :- Optional(obj, "annotations", DecodeAnnotations);
    var description :- Optional(obj, "description", DecodeString);
    var mimeType :- Optional(obj, "mimeType", DecodeString);
    var name :- Required(obj, "name", DecodeString);
    var size :- Optional(obj, "size", DecodeInt64);
    var title :- Optional(obj, "title", DecodeString);
    var uri :- Required(obj, "uri", DecodeString);
    Ok(ResourceLink.ResourceLink(meta, annotations, description, mimeType, name, size, title, uri))
  }

  function DecodeResourceLink(j: Json): (r: Result<ResourceLink>)
    ensures r.Ok? ==> HasTag(j, "resource_link")
  {
    DecodeTagged(j, "ResourceLink", "resource_link", ResourceLinkMembers)
  }

  lemma ResourceLinkRoundTrip(x: ResourceLink)
    ensures DecodeResourceLink(EncodeResourceLink(x)) == Ok(x)
  {
    ResourceLinkLeadingMembers(x);
    ResourceLinkTrailingMembers(x);
    ResourceLinkMembersOk(EncodeResourceLink(x).fields, x);
  }

  lemma ResourceLinkLeadingMembers(x: ResourceLink)
    ensures var obj := EncodeResourceLink(x).fields;
      && Optional(obj, "_meta", DecodeObject) == Ok(x.meta)
      && Optional(obj, "annotations", DecodeAnnotations) == Ok(x.annotations)
      && Optional(obj, "description", DecodeString) == Ok(x.description)
      && Optional(obj, "mimeType", DecodeString) == Ok(x.mimeType)
  {
    var es := ResourceLinkEntries(x);
    if x.meta.Some? { ObjectRoundTrip(x.meta.value); }
    OptionalEntryRoundTrip(es, 0, "_meta", x.meta, EncodeObject, DecodeObject);
    if x.annotations.Some? { AnnotationsRoundTrip(x.annotations.value); }
    OptionalEntryRoundTrip(es, 1, "annotations", x.annotations, EncodeAnnotations, DecodeAnnotations);
    OptionalEntryRoundTrip(es, 2, "description", x.description, EncodeString, DecodeString);
    OptionalEntryRoundTrip(es, 3, "mimeType", x.mimeType, EncodeString, DecodeString);
  }

  lemma ResourceLinkTrailingMembers(x: ResourceLink)
    ensures var obj := EncodeResourceLink(x).fields;
      && Required(obj, "name", DecodeString) == Ok(x.name)
      && Optional(obj, "size", DecodeInt64) == Ok(x.size)
      && Optional(obj, "title", DecodeString) == Ok(x.title)
      && Required(obj, "uri", DecodeString) == Ok(x.uri)
  {
    var es := ResourceLinkEntries(x);
    AddEntriesWrites(map[], es, 4);
    OptionalEntryRoundTrip(es, 5, "size", x.size, EncodeInt64, DecodeInt64);
    OptionalEntryRoundTrip(es, 6, "title", x.title, EncodeString, DecodeString);
    AddEntriesWrites(map[], es, 7);
  }

  lemma ResourceLinkMembersOk(obj: Object, x: ResourceLink)
    requires Optional(obj, "_meta", DecodeObject) == Ok(x.meta)
    requires Optional(obj, "annotations", DecodeAnnotations) == Ok(x.annotations)
    requires Optional(obj, "description", DecodeString) == Ok(x.description)
    requires Optional(obj, "mimeType", DecodeString) == Ok(x.mimeType)
    requires Optional(obj, "size", DecodeInt64) == Ok(x.size)
    requires Optional(obj, "title", DecodeString) == Ok(x.title)
    requires Required(obj, "name", DecodeString) == Ok(x.name)
    requires Required(obj, "uri", DecodeString) == Ok(x.uri)
    ensures ResourceLinkMembers(obj) == Ok(x)
  {
  }

  // ---------------------------------------------------------------------
  // ContentBlock and SamplingMessage (untagged unions)

  /** `#[serde(untagged)] enum ContentBlock`, variants in declared order; the default is `Empty`. */
  datatype ContentBlock =
    | Audio(audio: AudioContent)
    | EmbeddedResource(embedded: EmbeddedResource)
    | Image(image: ImageContent)
    | ResourceLink(link: ResourceLink)
    | Text(text: TextContent)
    | Empty(empty: Empty)

  function DefaultContentBlock(): ContentBlock { ContentBlock.Empty(Codec.Empty) }

  /** An untagged enum writes its variant's own encoding, with no wrapper. */
  function EncodeContentBlock(c: ContentBlock): (j: Json)
    ensures j.JObj?
    ensures c.Empty? <==> j == JObj(map[])
    ensures c.Audio? ==> HasTag(j, "audio")
    ensures c.EmbeddedResource? ==> HasTag(j, "resource")
    ensures c.Image? ==> HasTag(j, "image")
    ensures c.ResourceLink? ==> HasTag(j, "resource_link")
    ensures c.Text? ==> HasTag(j, "text")
  {
    match c
    case Audio(x) => EncodeAudioContent(x)
    case EmbeddedResource(x) => EncodeEmbeddedResource(x)
    case Image(x) => EncodeImageContent(x)
    case ResourceLink(x) => EncodeResourceLink(x)
    case Text(x) => EncodeTextContent(x)
    case Empty(e) => EncodeEmpty(e)
  }

  function ContentBlockAttempts(j: Json): seq<Result<ContentBlock>> {
    [ Lift(DecodeAudioContent(j), x => ContentBlock.Audio(x)),
      Lift(DecodeEmbeddedResource(j), x => ContentBlock.EmbeddedResource(x)),
      Lift(DecodeImageContent(j), x => ContentBlock.Image(x)),
      Lift(DecodeResourceLink(j), x => ContentBlock.ResourceLink(x)),
      Lift(DecodeTextContent(j), x => ContentBlock.Text(x)),
      Lift(DecodeEmpty(j), e => ContentBlock.Empty(e)) ]
  }

  function DecodeContentBlock(j: Json): Result<ContentBlock> {
    FirstMatch(ContentBlockAttempts(j), "ContentBlock")
  }

  /**
   * Decoding the encoding of any variant gives back that same variant: every
   * earlier candidate fails, on its `type` check (the five literals differ) or,
   * for `Empty`, on the members the encoding carries.
   */
  lemma ContentBlockRoundTrip(c: ContentBlock)
    ensures DecodeContentBlock(EncodeContentBlock(c)) == Ok(c)
  {
    match c
    case Audio(x) =>
      AudioContentRoundTrip(x);
      ContentBlockPicksAudio(EncodeContentBlock(c), x);
    case EmbeddedResource(x) =>
      EmbeddedResourceRoundTrip(x);
      ContentBlockPicksEmbeddedResource(EncodeContentBlock(c), x);
    case Image(x) =>
      ImageContentRoundTrip(x);
      ContentBlockPicksImage(EncodeContentBlock(c), x);
    case ResourceLink(x) =>
      ResourceLinkRoundTrip(x);
      ContentBlockPicksResourceLink(EncodeContentBlock(c), x);
    case Text(x) =>
      TextContentRoundTrip(x);
      ContentBlockPicksText(EncodeContentBlock(c), x);
    case Empty(e) =>
      EmptyRoundTrip(e);
      ContentBlockPicksEmpty(EncodeContentBlock(c));
  }

  /** Whatever decodes as `AudioContent` decodes as that variant of the union: the first variant, so it is taken. */
  lemma ContentBlockPicksAudio(j: Json, x: AudioContent)
    requires DecodeAudioContent(j) == Ok(x)
    ensures DecodeContentBlock(j) == Ok(ContentBlock.Audio(x))
  {
    FirstMatchAt(ContentBlockAttempts(j), "ContentBlock", 0);
  }

  /** Whatever decodes as `EmbeddedResource` decodes as that variant of the union: the variants tried before it (Audio) all check a different `type` literal. */
  lemma ContentBlockPicksEmbeddedResource(j: Json, x: EmbeddedResource)
    requires DecodeEmbeddedResource(j) == Ok(x)
    ensures DecodeContentBlock(j) == Ok(ContentBlock.EmbeddedResource(x))
  {
    var cs := ContentBlockAttempts(j);
    assert HasTag(j, "resource");
    assert cs[0].Err?;
    FirstMatchAt(cs, "ContentBlock", 1);
  }

  /** Whatever decodes as `ImageContent` decodes as that variant of the union: the variants tried before it (Audio, EmbeddedResource) all check a different `type` literal. */
  lemma ContentBlockPicksImage(j: Json, x: ImageContent)
    requires DecodeImageContent(j) == Ok(x)
    ensures DecodeContentBlock(j) == Ok(ContentBlock.Image(x))
  {
    var cs := ContentBlockAttempts(j);
    assert HasTag(j, "image");
    assert cs[0].Err? && cs[1].Err?;
    FirstMatchAt(cs, "ContentBlock", 2);
  }

  /** Whatever decodes as `ResourceLink` decodes as that variant of the union: the variants tried before it (Audio, EmbeddedResource, Image) all check a different `type` literal. */
  lemma ContentBlockPicksResourceLink(j: Json, x: ResourceLink)
    requires DecodeResourceLink(j) == Ok(x)
    ensures DecodeContentBlock(j) == Ok(ContentBlock.ResourceLink(x))
  {
    var cs := ContentBlockAttempts(j);
    assert HasTag(j, "resource_link");
    assert cs[0].Err? && cs[1].Err? && cs[2].Err?;
    FirstMatchAt(cs, "ContentBlock", 3);
  }

  /** Whatever decodes as `TextContent` decodes as that variant of the union: the variants tried before it (Audio, EmbeddedResource, Image, ResourceLink) all check a different `type` literal. */
  lemma ContentBlockPicksText(j: Json, x: TextContent)
    requires DecodeTextContent(j) == Ok(x)
    ensures DecodeContentBlock(j) == Ok(ContentBlock.Text(x))
  {
    var cs := ContentBlockAttempts(j);
    assert HasTag(j, "text");
    assert cs[0].Err? && cs[1].Err? && cs[2].Err? && cs[3].Err?;
    FirstMatchAt(cs, "ContentBlock", 4);
  }

  /** `{}` carries no `type`, so every tagged variant refuses it and `Empty` takes it. */
  lemma ContentBlockPicksEmpty(j: Json)
    requires j == JObj(map[])
    ensures DecodeContentBlock(j) == Ok(DefaultContentBlock())
  {
    var cs := ContentBlockAttempts(j);
    assert cs[5] == Ok(DefaultContentBlock());
    FirstMatchAt(cs, "ContentBlock", 5);
  }

  /** An encoded image is not captured by `Audio`, tried first: its helper parses, its tag does not match. */
  lemma ImageIsNotAudio(x: ImageContent)
    ensures DecodeAudioContent(EncodeImageContent(x)) == Err(TypeMismatch("AudioContent", "audio", "image"))
  {
    var obj := EncodeImageContent(x).fields;
    MetaAndAnnotationsRoundTrip(obj, x.meta, x.annotations);
    assert AudioContentMembers(obj) == Ok(AudioContent(x.meta, x.annotations, x.data, x.mimeType));
    DecodeTaggedMismatch(obj, "AudioContent", "audio", "image", AudioContentMembers);
  }

  /** A `TextContent`-shaped object whose `type` is `"image"` is rejected by `TextContent`. */
  lemma TextContentRejectsImageTag(text: string)
    ensures DecodeTextContent(JObj(map["text" := JStr(text), "type" := JStr("image")]))
         == Err(TypeMismatch("TextContent", "text", "image"))
  {
    var obj := map["text" := JStr(text), "type" := JStr("image")];
    assert TextContentMembers(obj) == Ok(TextContent(None, None, text));
    DecodeTaggedMismatch(obj, "TextContent", "text", "image", TextContentMembers);
  }

  /**
   * An object without a `type` member matches no tagged variant, and when it
   * has any member at all `Empty` refuses it too: the whole union fails.
   */
  lemma ContentBlockUntypedNonEmptyFails(obj: Object)
    requires TypeKey !in obj && obj != map[]
    ensures DecodeContentBlock(JObj(obj)) == Err(NoVariantMatched("ContentBlock"))
  {
    var j := JObj(obj);
    var cs := ContentBlockAttempts(j);
    assert forall i :: 0 <= i < |cs| ==> cs[i].Err? by {
      assert cs[0].Err? && cs[1].Err? && cs[2].Err? && cs[3].Err? && cs[4].Err? && cs[5].Err?;
    }
  }

  /** `#[serde(untagged)] enum SamplingMessage { Audio, Image, Text, Empty }`; the default is `Empty`. */
  datatype SamplingMessage =
    | Audio(audio: AudioContent)
    | Image(image: ImageContent)
    | Text(text: TextContent)
    | Empty(empty: Empty)

  function DefaultSamplingMessage(): SamplingMessage { SamplingMessage.Empty(Codec.Empty) }

  /** Each variant is written as its own tagged object; only `Empty` is written as `{}`. */
  function EncodeSamplingMessage(m: SamplingMessage): (j: Json)
    ensures j.JObj?
    ensures m.Empty? <==> j == JObj(map[])
    ensures m.Audio? ==> HasTag(j, "audio")
    ensures m.Image? ==> HasTag(j, "image")
    ensures m.Text? ==> HasTag(j, "text")
  {
    match m
    case Audio(x) => EncodeAudioContent(x)
    case Image(x) => EncodeImageContent(x)
    case Text(x) => EncodeTextContent(x)
    case Empty(e) => EncodeEmpty(e)
  }

  function SamplingMessageAttempts(j: Json): seq<Result<SamplingMessage>> {
    [ Lift(DecodeAudioContent(j), x => SamplingMessage.Audio(x)),
      Lift(DecodeImageContent(j), x => SamplingMessage.Image(x)),
      Lift(DecodeTextContent(j), x => SamplingMessage.Text(x)),
      Lift(DecodeEmpty(j), e => SamplingMessage.Empty(e)) ]
  }

  function DecodeSamplingMessage(j: Json): Result<SamplingMessage> {
    FirstMatch(SamplingMessageAttempts(j), "SamplingMessage")
  }

  lemma SamplingMessageRoundTrip(m: SamplingMessage)
    ensures DecodeSamplingMessage(EncodeSamplingMessage(m)) == Ok(m)
  {
    match m
    case Audio(x) =>
      AudioContentRoundTrip(x);
      SamplingMessagePicksAudio(EncodeSamplingMessage(m), x);
    case Image(x) =>
      ImageContentRoundTrip(x);
      SamplingMessagePicksImage(EncodeSamplingMessage(m), x);
    case Text(x) =>
      TextContentRoundTrip(x);
      SamplingMessagePicksText(EncodeSamplingMessage(m), x);
    case Empty(e) =>
      EmptyRoundTrip(e);
      SamplingMessagePicksEmpty(EncodeSamplingMessage(m));
  }

  /** Whatever decodes as `AudioContent` decodes as that variant of the union: the first variant, so it is taken. */
  lemma SamplingMessagePicksAudio(j: Json, x: AudioContent)
    requires DecodeAudioContent(j) == Ok(x)
    ensures DecodeSamplingMessage(j) == Ok(SamplingMessage.Audio(x))
  {
    FirstMatchAt(SamplingMessageAttempts(j), "SamplingMessage", 0);
  }

  /** Whatever decodes as `ImageContent` decodes as that variant of the union: the variants tried before it (Audio) check a different `type` literal. */
  lemma SamplingMessagePicksImage(j: Json, x: ImageContent)
    requires DecodeImageContent(j) == Ok(x)
    ensures DecodeSamplingMessage(j) == Ok(SamplingMessage.Image(x))
  {
    FirstMatchAt(SamplingMessageAttempts(j), "SamplingMessage", 1);
  }

  /** Whatever decodes as `TextContent` decodes as that variant of the union: the variants tried before it (Audio, Image) check a different `type` literal. */
  lemma SamplingMessagePicksText(j: Json, x: TextContent)
    requires DecodeTextContent(j) == Ok(x)
    ensures DecodeSamplingMessage(j) == Ok(SamplingMessage.Text(x))
  {
    FirstMatchAt(SamplingMessageAttempts(j), "SamplingMessage", 2);
  }

  /** `{}` carries no `type`, so every tagged variant refuses it and `Empty` takes it. */
  lemma SamplingMessagePicksEmpty(j: Json)
    requires j == JObj(map[])
    ensures DecodeSamplingMessage(j) == Ok(DefaultSamplingMessage())
  {
    var cs := SamplingMessageAttempts(j);
    assert cs[3] == Ok(DefaultSamplingMessage());
    FirstMatchAt(cs, "SamplingMessage", 3);
  }

  /** An object with members but no `type` matches no tagged variant and is not `{}`: the union fails. */
  lemma SamplingMessageUntypedNonEmptyFails(obj: Object)
    requires TypeKey !in obj && obj != map[]
    ensures DecodeSamplingMessage(JObj(obj)) == Err(NoVariantMatched("SamplingMessage"))
  {
    var cs := SamplingMessageAttempts(JObj(obj));
    assert cs[0].Err? && cs[1].Err? && cs[2].Err? && cs[3].Err?;
  }

  /**
   * The two contents variants overlap: an object carrying `blob`, `text` and
   * `uri` reads as text contents too, yet the union takes `Blob`, tried first.
   */
  lemma BlobBeforeText(blob: string, text: string, uri: string)
    ensures DecodeTextResourceContents(JObj(map["blob" := JStr(blob), "text" := JStr(text), "uri" := JStr(uri)]))
         == Ok(TextResourceContents(None, None, text, uri))
    ensures DecodeResourceContents(JObj(map["blob" := JStr(blob), "text" := JStr(text), "uri" := JStr(uri)]))
         == Ok(ResourceContents.Blob(BlobResourceContents(None, blob, None, uri)))
  {
    var j := JObj(map["blob" := JStr(blob), "text" := JStr(text), "uri" := JStr(uri)]);
    var cs := ResourceContentsAttempts(j);
    assert DecodeBlobResourceContents(j) == Ok(BlobResourceContents(None, blob, None, uri));
    FirstMatchAt(cs, "ResourceContents", 0);
  }
}
