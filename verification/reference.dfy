/**
 * What a completion request completes against: a prompt (tag `"prompt"`) or a
 * resource template (tag `"resource"`), as an untagged union ending in `Empty`.
 */
module References {
  import opened Json
  import opened Codec

  // ---------------------------------------------------------------------
  // PromptReference (tag "prompt")

  datatype PromptReference = PromptReference(name: string, title: Option<string>)

  function EncodePromptReference(x: PromptReference): (j: Json)
    ensures HasTag(j, "prompt") && "name" in j.fields
  {
    Tagged(WithOptional(map["name" := JStr(x.name)], "title", x.title, EncodeString), "prompt")
  }

  function PromptReferenceMembers(obj: Object): Result<PromptReference> {
    var name :- Required(obj, "name", DecodeString);
    var title :- Optional(obj, "title", DecodeString);
    Ok(PromptReference(name, title))
  }

  function DecodePromptReference(j: Json): (r: Result<PromptReference>)
    ensures r.Ok? ==> HasTag(j, "prompt")
  {
    DecodeTagged(j, "PromptReference", "prompt", PromptReferenceMembers)
  }

  lemma PromptReferenceRoundTrip(x: PromptReference)
    ensures DecodePromptReference(EncodePromptReference(x)) == Ok(x)
  {
    OptionalRoundTrip(EncodePromptReference(x).fields, "title", x.title, EncodeString, DecodeString);
  }

  /**
   * Members the struct does not declare are ignored, so an object with an
   * extra `role` still reads as a prompt reference; the same object tagged
   * `"resource"` is rejected by the tag check.
   */
  lemma PromptReferenceIgnoresUnknownMembers(role: string, name: string)
    ensures DecodePromptReference(JObj(map["role" := JStr(role), "name" := JStr(name), TypeKey := JStr("prompt")]))
         == Ok(PromptReference(name, None))
    ensures DecodePromptReference(JObj(map["role" := JStr(role), "name" := JStr(name), TypeKey := JStr("resource")]))
         == Err(TypeMismatch("PromptReference", "prompt", "resource"))
  {
    var obj := map["role" := JStr(role), "name" := JStr(name), TypeKey := JStr("resource")];
    assert PromptReferenceMembers(obj) == Ok(PromptReference(name, None));
    DecodeTaggedMismatch(obj, "PromptReference", "prompt", "resource", PromptReferenceMembers);
  }

  // ---------------------------------------------------------------------
  // ResourceTemplateReference (tag "resource")

  datatype ResourceTemplateReference = ResourceTemplateReference(uri: string)

  function EncodeResourceTemplateReference(x: ResourceTemplateReference): (j: Json)
    ensures HasTag(j, "resource")
  {
    Tagged(map["uri" := JStr(x.uri)], "resource")
  }

  function ResourceTemplateReferenceMembers(obj: Object): Result<ResourceTemplateReference> {
    var uri :- Required(obj, "uri", DecodeString);
    Ok(ResourceTemplateReference(uri))
  }

  function DecodeResourceTemplateReference(j: Json): (r: Result<ResourceTemplateReference>)
    ensures r.Ok? ==> HasTag(j, "resource")
  {
    DecodeTagged(j, "ResourceTemplateReference", "resource", ResourceTemplateReferenceMembers)
  }

  lemma ResourceTemplateReferenceRoundTrip(x: ResourceTemplateReference)
    ensures DecodeResourceTemplateReference(EncodeResourceTemplateReference(x)) == Ok(x)
  {
  }

  // ---------------------------------------------------------------------
  // Reference (untagged: Prompt, ResourceTemplate, Empty)

  datatype Reference =
    | Prompt(prompt: PromptReference)
    | ResourceTemplate(template: ResourceTemplateReference)
    | Empty(empty: Empty)

  function DefaultReference(): Reference { Reference.Empty(Codec.Empty) }

  /** Each variant is written as its own tagged object, with no wrapper; only `Empty` is written as `{}`. */
  function EncodeReference(r: Reference): (j: Json)
    ensures j.JObj?
    ensures r.Empty? <==> j == JObj(map[])
    ensures r.Prompt? ==> HasTag(j, "prompt")
    ensures r.ResourceTemplate? ==> HasTag(j, "resource")
  {
    match r
    case Prompt(x) => EncodePromptReference(x)
    case ResourceTemplate(x) => EncodeResourceTemplateReference(x)
    case Empty(e) => EncodeEmpty(e)
  }

  function ReferenceAttempts(j: Json): seq<Result<Reference>> {
    [ Lift(DecodePromptReference(j), x => Reference.Prompt(x)),
      Lift(DecodeResourceTemplateReference(j), x => Reference.ResourceTemplate(x)),
      Lift(DecodeEmpty(j), e => Reference.Empty(e)) ]
  }

  function DecodeReference(j: Json): Result<Reference> {
    FirstMatch(ReferenceAttempts(j), "Reference")
  }

  lemma ReferenceRoundTrip(r: Reference)
    ensures DecodeReference(EncodeReference(r)) == Ok(r)
  {
    var j := EncodeReference(r);
    var cs := ReferenceAttempts(j);
    match r
    case Prompt(x) =>
      PromptReferenceRoundTrip(x);
      ReferencePicksPrompt(j, x);
    case ResourceTemplate(x) =>
      ResourceTemplateReferenceRoundTrip(x);
      ReferencePicksResourceTemplate(j, x);
    case Empty(e) =>
      EmptyRoundTrip(e);
      assert cs[2] == Ok(r);
      FirstMatchAt(cs, "Reference", 2);
  }

  /** Whatever decodes as a prompt reference decodes as the `Prompt` variant, the first one tried. */
  lemma ReferencePicksPrompt(j: Json, x: PromptReference)
    requires DecodePromptReference(j) == Ok(x)
    ensures DecodeReference(j) == Ok(Reference.Prompt(x))
  {
    FirstMatchAt(ReferenceAttempts(j), "Reference", 0);
  }

  /**
   * Whatever decodes as a template reference decodes as the `ResourceTemplate`
   * variant: `Prompt`, tried first, checks the different literal `"prompt"`.
   */
  lemma ReferencePicksResourceTemplate(j: Json, x: ResourceTemplateReference)
    requires DecodeResourceTemplateReference(j) == Ok(x)
    ensures DecodeReference(j) == Ok(Reference.ResourceTemplate(x))
  {
    FirstMatchAt(ReferenceAttempts(j), "Reference", 1);
  }

  /** `{}` is the `Empty` reference, the Rust default. */
  lemma EmptyObjectIsDefaultReference()
    ensures DecodeReference(JObj(map[])) == Ok(DefaultReference())
  {
    ReferenceRoundTrip(DefaultReference());
  }

  /** An object with members but no `type` is no reference at all: the union fails. */
  lemma UntypedReferenceFails(obj: Object)
    requires TypeKey !in obj && obj != map[]
    ensures DecodeReference(JObj(obj)) == Err(NoVariantMatched("Reference"))
  {
    var cs := ReferenceAttempts(JObj(obj));
    assert cs[0].Err? && cs[1].Err? && cs[2].Err?;
  }
}
