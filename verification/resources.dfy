/**
 * Resources and resource templates a plugin lists, reading a resource, the
 * notification that one changed, and the client's roots.
 */
module Resources {
  import opened Json
  import opened Codec
  import opened Content
  import opened RequestContext

  // ---------------------------------------------------------------------
  // Resource

  /** `size` is a byte count held in an `i64`. */
  datatype Resource = Resource(
    annotations: Option<Annotations>,
    description: Option<string>,
    mimeType: Option<string>,
    name: string,
    size: Option<int64>,
    title: Option<string>,
    uri: string)

  /** The members of a resource in declaration order; `name` and `uri` are always written. */
  function ResourceEntries(x: Resource): (es: seq<Entry>)
    ensures |es| == 7 && DistinctKeys(es)
  {
    [ OptionalEntry("annotations", x.annotations, EncodeAnnotations),
      OptionalEntry("description", x.description, EncodeString),
      OptionalEntry("mimeType", x.mimeType, EncodeString),
      ("name", Some(JStr(x.name))),
      OptionalEntry("size", x.size, EncodeInt64),
      OptionalEntry("title", x.title, EncodeString),
      ("uri", Some(JStr(x.uri))) ]
  }

  /** `name` and `uri` are always written; every optional member exactly when it holds a value. */
  function EncodeResource(x: Resource): (j: Json)
    ensures j.JObj? && "name" in j.fields && "uri" in j.fields
    ensures j.fields["name"] == JStr(x.name) && j.fields["uri"] == JStr(x.uri)
    ensures "annotations" in j.fields <==> x.annotations.Some?
    ensures "description" in j.fields <==> x.description.Some?
    ensures "mimeType" in j.fields <==> x.mimeType.Some?
    ensures "size" in j.fields <==> x.size.Some?
    ensures "title" in j.fields <==> x.title.Some?
  {
    var es := ResourceEntries(x);
    AddEntriesWrites(map[], es, 0);
    AddEntriesWrites(map[], es, 1);
    AddEntriesWrites(map[], es, 2);
    AddEntriesWrites(map[], es, 3);
    AddEntriesWrites(map[], es, 4);
    AddEntriesWrites(map[], es, 5);
    AddEntriesWrites(map[], es, 6);
    JObj(AddEntries(map[], es))
  }

  function ResourceMembers(obj: Object): Result<Resource> {
    var annotations :- Optional(obj, "annotations", DecodeAnnotations);
    var description :- Optional(obj, "description", DecodeString);
    var mimeType :- Optional(obj, "mimeType", DecodeString);
    var name :- Required(obj, "name", DecodeString);
    var size :- Optional(obj, "size", DecodeInt64);
    var title :- Optional(obj, "title", DecodeString);
    var uri :- Required(obj, "uri", DecodeString);
    Ok(Resource(annotations, description, mimeType, name, size, title, uri))
  }

  /** `name` and `uri` are required; a `size` must fit in an `i64`. */
  function DecodeResource(j: Json): (r: Result<Resource>)
    ensures r.Ok? ==> j.JObj? && "name" in j.fields && "uri" in j.fields
    ensures r.Ok? ==> j.fields["name"] == JStr(r.value.name) && j.fields["uri"] == JStr(r.value.uri)
    ensures r.Ok? && r.value.size.Some? ==> "size" in j.fields && j.fields["size"] == JInt(r.value.size.value as int)
  {
    var obj :- AsObject(j, "Resource");
    ResourceMembers(obj)
  }

  lemma ResourceRoundTrip(x: Resource)
    ensures DecodeResource(EncodeResource(x)) == Ok(x)
  {
    var es := ResourceEntries(x);
    if x.annotations.Some? { AnnotationsRoundTrip(x.annotations.value); }
    OptionalEntryRoundTrip(es, 0, "annotations", x.annotations, EncodeAnnotations, DecodeAnnotations);
    OptionalEntryRoundTrip(es, 1, "description", x.description, EncodeString, DecodeString);
    OptionalEntryRoundTrip(es, 2, "mimeType", x.mimeType, EncodeString, DecodeString);
    AddEntriesWrites(map[], es, 3);
    OptionalEntryRoundTrip(es, 4, "size", x.size, EncodeInt64, DecodeInt64);
    OptionalEntryRoundTrip(es, 5, "title", x.title, EncodeString, DecodeString);
    AddEntriesWrites(map[], es, 6);
    ResourceMembersOk(AddEntries(map[], es), x);
  }

  lemma ResourceMembersOk(obj: Object, x: Resource)
    requires Optional(obj, "annotations", DecodeAnnotations) == Ok(x.annotations)
    requires Optional(obj, "description", DecodeString) == Ok(x.description)
    requires Optional(obj, "mimeType", DecodeString) == Ok(x.mimeType)
    requires Required(obj, "name", DecodeString) == Ok(x.name)
    requires Optional(obj, "size", DecodeInt64) == Ok(x.size)
    requires Optional(obj, "title", DecodeString) == Ok(x.title)
    requires Required(obj, "uri", DecodeString) == Ok(x.uri)
    ensures ResourceMembers(obj) == Ok(x)
  {
  }

  /** A resource with every optional field `None` is written with exactly `name` and `uri`. */
  lemma BareResourceEncoding(name: string, uri: string)
    ensures EncodeResource(Resource(None, None, None, name, None, None, uri))
         == JObj(map["name" := JStr(name), "uri" := JStr(uri)])
  {
    var es := ResourceEntries(Resource(None, None, None, name, None, None, uri));
    calc {
      AddEntries(map[], es);
      AddEntries(map[], es[1..]);
      AddEntries(map[], es[2..]);
      AddEntries(map[], es[3..]);
      AddEntries(map["name" := JStr(name)], es[4..]);
      AddEntries(map["name" := JStr(name)], es[5..]);
      AddEntries(map["name" := JStr(name)], es[6..]);
      AddEntries(map["name" := JStr(name), "uri" := JStr(uri)], es[7..]);
    }
  }

  function EncodeResources(xs: seq<Resource>): Json { EncodeSeq(xs, EncodeResource) }

  function DecodeResources(j: Json): Result<seq<Resource>> { DecodeSeq(j, DecodeResource) }

  lemma ResourcesRoundTrip(xs: seq<Resource>)
    ensures DecodeResources(EncodeResources(xs)) == Ok(xs)
  {
    forall i | 0 <= i < |xs| ensures DecodeResource(EncodeResource(xs[i])) == Ok(xs[i]) {
      ResourceRoundTrip(xs[i]);
    }
    SeqRoundTrip(xs, EncodeResource, DecodeResource);
  }

  // ---------------------------------------------------------------------
  // ResourceTemplate

  /** `uriTemplate` is an RFC 6570 pattern, kept as an uninterpreted string. */
  datatype ResourceTemplate = ResourceTemplate(
    annotations: Option<Annotations>,
    description: Option<string>,
    mimeType: Option<string>,
    name: string,
    title: Option<string>,
    uriTemplate: string)

  function EncodeResourceTemplate(x: ResourceTemplate): (j: Json)
    ensures j.JObj? && "name" in j.fields && "uriTemplate" in j.fields && j.fields["name"] == JStr(x.name) && j.fields["uriTemplate"] == JStr(x.uriTemplate)
  {
    var obj := map["name" := JStr(x.name), "uriTemplate" := JStr(x.uriTemplate)];
    var obj := WithOptional(obj, "annotations", x.annotations, EncodeAnnotations);
    var obj := WithOptional(obj, "description", x.description, EncodeString);
    var obj := WithOptional(obj, "mimeType", x.mimeType, EncodeString);
    JObj(WithOptional(obj, "title", x.title, EncodeString))
  }

  /** The template is read from `uriTemplate`; a plain `uri` member does not stand in for it. */
  function DecodeResourceTemplate(j: Json): (r: Result<ResourceTemplate>)
    ensures r.Ok? ==> j.JObj? && "uriTemplate" in j.fields && j.fields["uriTemplate"] == JStr(r.value.uriTemplate)
    ensures j.JObj? && "uriTemplate" !in j.fields ==> r.Err?
  {
    var obj :- AsObject(j, "ResourceTemplate");
    var annotations :- Optional(obj, "annotations", DecodeAnnotations);
    var description :- Optional(obj, "description", DecodeString);
    var mimeType :- Optional(obj, "mimeType", DecodeString);
    var name :- Required(obj, "name", DecodeString);
    var title :- Optional(obj, "title", DecodeString);
    var uriTemplate :- Required(obj, "uriTemplate", DecodeString);
    Ok(ResourceTemplate(annotations, description, mimeType, name, title, uriTemplate))
  }

  lemma ResourceTemplateRoundTrip(x: ResourceTemplate)
    ensures DecodeResourceTemplate(EncodeResourceTemplate(x)) == Ok(x)
  {
    var obj := EncodeResourceTemplate(x).fields;
    if x.annotations.Some? { AnnotationsRoundTrip(x.annotations.value); }
    OptionalRoundTrip(obj, "annotations", x.annotations, EncodeAnnotations, DecodeAnnotations);
    OptionalRoundTrip(obj, "description", x.description, EncodeString, DecodeString);
    OptionalRoundTrip(obj, "mimeType", x.mimeType, EncodeString, DecodeString);
    OptionalRoundTrip(obj, "title", x.title, EncodeString, DecodeString);
  }

  function EncodeResourceTemplates(xs: seq<ResourceTemplate>): Json { EncodeSeq(xs, EncodeResourceTemplate) }

  function DecodeResourceTemplates(j: Json): Result<seq<ResourceTemplate>> { DecodeSeq(j, DecodeResourceTemplate) }

  lemma ResourceTemplatesRoundTrip(xs: seq<ResourceTemplate>)
    ensures DecodeResourceTemplates(EncodeResourceTemplates(xs)) == Ok(xs)
  {
    forall i | 0 <= i < |xs| ensures DecodeResourceTemplate(EncodeResourceTemplate(xs[i])) == Ok(xs[i]) {
      ResourceTemplateRoundTrip(xs[i]);
    }
    SeqRoundTrip(xs, EncodeResourceTemplate, DecodeResourceTemplate);
  }

  // ---------------------------------------------------------------------
  // ReadResource

  datatype ReadResourceRequestParam = ReadResourceRequestParam(uri: string)

  function EncodeReadResourceRequestParam(x: ReadResourceRequestParam): Json {
    JObj(map["uri" := JStr(x.uri)])
  }

  function DecodeReadResourceRequestParam(j: Json): (r: Result<ReadResourceRequestParam>)
    ensures r.Ok? <==> j.JObj? && "uri" in j.fields && j.fields["uri"].JStr?
    ensures r.Ok? ==> r.value.uri == j.fields["uri"].s
  {
    var obj :- AsObject(j, "ReadResourceRequestParam");
    var uri :- Required(obj, "uri", DecodeString);
    Ok(ReadResourceRequestParam(uri))
  }

  lemma ReadResourceRequestParamRoundTrip(x: ReadResourceRequestParam)
    ensures DecodeReadResourceRequestParam(EncodeReadResourceRequestParam(x)) == Ok(x)
  {
  }

  datatype ReadResourceRequest = ReadResourceRequest(context: PluginRequestContext, request: ReadResourceRequestParam)

  function EncodeReadResourceRequest(x: ReadResourceRequest): Json {
    JObj(map["context" := EncodePluginRequestContext(x.context), "request" := EncodeReadResourceRequestParam(x.request)])
  }

  function DecodeReadResourceRequest(j: Json): (r: Result<ReadResourceRequest>)
    ensures r.Ok? ==> j.JObj? && "context" in j.fields && "request" in j.fields
    ensures r.Ok? ==> DecodeReadResourceRequestParam(j.fields["request"]) == Ok(r.value.request)
  {
    var obj :- AsObject(j, "ReadResourceRequest");
    var context :- Required(obj, "context", DecodePluginRequestContext);
    var request :- Required(obj, "request", DecodeReadResourceRequestParam);
    Ok(ReadResourceRequest(context, request))
  }

  lemma ReadResourceRequestRoundTrip(x: ReadResourceRequest)
    ensures DecodeReadResourceRequest(EncodeReadResourceRequest(x)) == Ok(x)
  {
    PluginRequestContextRoundTrip(x.context);
  }

  datatype ReadResourceResult = ReadResourceResult(contents: seq<ResourceContents>)

  function EncodeResourceContentsList(xs: seq<ResourceContents>): Json { EncodeSeq(xs, EncodeResourceContents) }

  function DecodeResourceContentsList(j: Json): Result<seq<ResourceContents>> { DecodeSeq(j, DecodeResourceContents) }

  lemma ResourceContentsListRoundTrip(xs: seq<ResourceContents>)
    ensures DecodeResourceContentsList(EncodeResourceContentsList(xs)) == Ok(xs)
  {
    forall i | 0 <= i < |xs| ensures DecodeResourceContents(EncodeResourceContents(xs[i])) == Ok(xs[i]) {
      ResourceContentsRoundTrip(xs[i]);
    }
    SeqRoundTrip(xs, EncodeResourceContents, DecodeResourceContents);
  }

  function EncodeReadResourceResult(x: ReadResourceResult): Json {
    JObj(map["contents" := EncodeResourceContentsList(x.contents)])
  }

  /** Each element is tried as blob, then text, then `{}`. */
  function DecodeReadResourceResult(j: Json): (r: Result<ReadResourceResult>)
    ensures r.Ok? ==> j.JObj? && "contents" in j.fields && DecodeResourceContentsList(j.fields["contents"]) == Ok(r.value.contents)
  {
    var obj :- AsObject(j, "ReadResourceResult");
    var contents :- Required(obj, "contents", DecodeResourceContentsList);
    Ok(ReadResourceResult(contents))
  }

  lemma ReadResourceResultRoundTrip(x: ReadResourceResult)
    ensures DecodeReadResourceResult(EncodeReadResourceResult(x)) == Ok(x)
  {
    ResourceContentsListRoundTrip(x.contents);
  }

  // ---------------------------------------------------------------------
  // ListResources and ListResourceTemplates

  datatype ListResourcesRequest = ListResourcesRequest(context: PluginRequestContext)

  function EncodeListResourcesRequest(x: ListResourcesRequest): Json {
    JObj(map["context" := EncodePluginRequestContext(x.context)])
  }

  function DecodeListResourcesRequest(j: Json): (r: Result<ListResourcesRequest>)
    ensures r.Ok? ==> j.JObj? && "context" in j.fields && DecodePluginRequestContext(j.fields["context"]) == Ok(r.value.context)
  {
    var obj :- AsObject(j, "ListResourcesRequest");
    var context :- Required(obj, "context", DecodePluginRequestContext);
    Ok(ListResourcesRequest(context))
  }

  lemma ListResourcesRequestRoundTrip(x: ListResourcesRequest)
    ensures DecodeListResourcesRequest(EncodeListResourcesRequest(x)) == Ok(x)
  {
    PluginRequestContextRoundTrip(x.context);
  }

  datatype ListResourcesResult = ListResourcesResult(resources: seq<Resource>)

  function EncodeListResourcesResult(x: ListResourcesResult): Json {
    JObj(map["resources" := EncodeResources(x.resources)])
  }

  function DecodeListResourcesResult(j: Json): (r: Result<ListResourcesResult>)
    ensures r.Ok? ==> j.JObj? && "resources" in j.fields && DecodeResources(j.fields["resources"]) == Ok(r.value.resources)
  {
    var obj :- AsObject(j, "ListResourcesResult");
    var resources :- Required(obj, "resources", DecodeResources);
    Ok(ListResourcesResult(resources))
  }

  lemma ListResourcesResultRoundTrip(x: ListResourcesResult)
    ensures DecodeListResourcesResult(EncodeListResourcesResult(x)) == Ok(x)
  {
    ResourcesRoundTrip(x.resources);
  }

  datatype ListResourceTemplatesRequest = ListResourceTemplatesRequest(context: PluginRequestContext)

  function EncodeListResourceTemplatesRequest(x: ListResourceTemplatesRequest): Json {
    JObj(map["context" := EncodePluginRequestContext(x.context)])
  }

  function DecodeListResourceTemplatesRequest(j: Json): (r: Result<ListResourceTemplatesRequest>)
    ensures r.Ok? ==> j.JObj? && "context" in j.fields && DecodePluginRequestContext(j.fields["context"]) == Ok(r.value.context)
  {
    var obj :- AsObject(j, "ListResourceTemplatesRequest");
    var context :- Required(obj, "context", DecodePluginRequestContext);
    Ok(ListResourceTemplatesRequest(context))
  }

  lemma ListResourceTemplatesRequestRoundTrip(x: ListResourceTemplatesRequest)
    ensures DecodeListResourceTemplatesRequest(EncodeListResourceTemplatesRequest(x)) == Ok(x)
  {
    PluginRequestContextRoundTrip(x.context);
  }

  /** The Rust field `resource_templates` travels as `resourceTemplates`. */
  datatype ListResourceTemplatesResult = ListResourceTemplatesResult(resourceTemplates: seq<ResourceTemplate>)

  function EncodeListResourceTemplatesResult(x: ListResourceTemplatesResult): Json {
    JObj(map["resourceTemplates" := EncodeResourceTemplates(x.resourceTemplates)])
  }

  function DecodeListResourceTemplatesResult(j: Json): (r: Result<ListResourceTemplatesResult>)
    ensures r.Ok? ==> j.JObj? && "resourceTemplates" in j.fields && DecodeResourceTemplates(j.fields["resourceTemplates"]) == Ok(r.value.resourceTemplates)
    ensures j.JObj? && "resourceTemplates" !in j.fields ==> r == Err(MissingField("resourceTemplates"))
  {
    var obj :- AsObject(j, "ListResourceTemplatesResult");
    var resourceTemplates :- Required(obj, "resourceTemplates", DecodeResourceTemplates);
    Ok(ListResourceTemplatesResult(resourceTemplates))
  }

  lemma ListResourceTemplatesResultRoundTrip(x: ListResourceTemplatesResult)
    ensures DecodeListResourceTemplatesResult(EncodeListResourceTemplatesResult(x)) == Ok(x)
  {
    ResourceTemplatesRoundTrip(x.resourceTemplates);
  }

  // ---------------------------------------------------------------------
  // ResourceUpdatedNotificationParam

  datatype ResourceUpdatedNotificationParam = ResourceUpdatedNotificationParam(uri: string)

  function EncodeResourceUpdatedNotificationParam(x: ResourceUpdatedNotificationParam): Json {
    JObj(map["uri" := JStr(x.uri)])
  }

  function DecodeResourceUpdatedNotificationParam(j: Json): (r: Result<ResourceUpdatedNotificationParam>)
    ensures r.Ok? <==> j.JObj? && "uri" in j.fields && j.fields["uri"].JStr?
    ensures r.Ok? ==> r.value.uri == j.fields["uri"].s
  {
    var obj :- AsObject(j, "ResourceUpdatedNotificationParam");
    var uri :- Required(obj, "uri", DecodeString);
    Ok(ResourceUpdatedNotificationParam(uri))
  }

  lemma ResourceUpdatedNotificationParamRoundTrip(x: ResourceUpdatedNotificationParam)
    ensures DecodeResourceUpdatedNotificationParam(EncodeResourceUpdatedNotificationParam(x)) == Ok(x)
  {
  }

  // ---------------------------------------------------------------------
  // Root and ListRootsResult

  datatype Root = Root(name: Option<string>, uri: string)

  function EncodeRoot(x: Root): (j: Json)
    ensures j.JObj? && "uri" in j.fields && ("name" in j.fields <==> x.name.Some?)
  {
    JObj(WithOptional(map["uri" := JStr(x.uri)], "name", x.name, EncodeString))
  }

  function DecodeRoot(j: Json): (r: Result<Root>)
    ensures r.Ok? ==> j.JObj? && "uri" in j.fields && j.fields["uri"] == JStr(r.value.uri)
    ensures r.Ok? && "name" !in j.fields ==> r.value.name.None?
  {
    var obj :- AsObject(j, "Root");
    var name :- Optional(obj, "name", DecodeString);
    var uri :- Required(obj, "uri", DecodeString);
    Ok(Root(name, uri))
  }

  lemma RootRoundTrip(x: Root)
    ensures DecodeRoot(EncodeRoot(x)) == Ok(x)
  {
    OptionalRoundTrip(EncodeRoot(x).fields, "name", x.name, EncodeString, DecodeString);
  }

  function EncodeRoots(xs: seq<Root>): Json { EncodeSeq(xs, EncodeRoot) }

  function DecodeRoots(j: Json): Result<seq<Root>> { DecodeSeq(j, DecodeRoot) }

  lemma RootsRoundTrip(xs: seq<Root>)
    ensures DecodeRoots(EncodeRoots(xs)) == Ok(xs)
  {
    forall i | 0 <= i < |xs| ensures DecodeRoot(EncodeRoot(xs[i])) == Ok(xs[i]) {
      RootRoundTrip(xs[i]);
    }
    SeqRoundTrip(xs, EncodeRoot, DecodeRoot);
  }

  datatype ListRootsResult = ListRootsResult(roots: seq<Root>)

  function EncodeListRootsResult(x: ListRootsResult): Json {
    JObj(map["roots" := EncodeRoots(x.roots)])
  }

  function DecodeListRootsResult(j: Json): (r: Result<ListRootsResult>)
    ensures r.Ok? ==> j.JObj? && "roots" in j.fields && DecodeRoots(j.fields["roots"]) == Ok(r.value.roots)
  {
    var obj :- AsObject(j, "ListRootsResult");
    var roots :- Required(obj, "roots", DecodeRoots);
    Ok(ListRootsResult(roots))
  }

  lemma ListRootsResultRoundTrip(x: ListRootsResult)
    ensures DecodeListRootsResult(EncodeListRootsResult(x)) == Ok(x)
  {
    RootsRoundTrip(x.roots);
  }
}
