/**
 * The context every host-to-plugin call and notification carries: the
 * request id (a string or an `i64`, untagged) and the `_meta` object, which
 * has no serde default and so must be present on the wire.
 */
module RequestContext {
  import opened Json
  import opened Codec

  // ---------------------------------------------------------------------
  // PluginRequestId (`#[serde(untagged)] enum { String(String), Number(i64) }`)

  datatype PluginRequestId = String(s: string) | Number(n: int64)

  /** The Rust `Default`: the empty string id. */
  function DefaultPluginRequestId(): PluginRequestId { String("") }

  function EncodePluginRequestId(id: PluginRequestId): Json {
    match id
    case String(s) => JStr(s)
    case Number(n) => EncodeInt64(n)
  }

  function PluginRequestIdAttempts(j: Json): seq<Result<PluginRequestId>> {
    [ Lift(DecodeString(j), s => PluginRequestId.String(s)),
      Lift(DecodeInt64(j), n => PluginRequestId.Number(n)) ]
  }

  /** A request id is a string or an integer that fits in an `i64`; anything else matches neither variant. */
  function DecodePluginRequestId(j: Json): (r: Result<PluginRequestId>)
    ensures r.Ok? <==> j.JStr? || (j.JInt? && -0x8000_0000_0000_0000 <= j.i < 0x8000_0000_0000_0000)
    ensures j.JStr? ==> r == Ok(String(j.s))
    ensures r.Err? ==> r.error == NoVariantMatched("PluginRequestId")
  {
    var cs := PluginRequestIdAttempts(j);
    if j.JStr? then
      FirstMatchAt(cs, "PluginRequestId", 0);
      FirstMatch(cs, "PluginRequestId")
    else
      assert j.JInt? && -0x8000_0000_0000_0000 <= j.i < 0x8000_0000_0000_0000 ==> cs[1].Ok?;
      FirstMatch(cs, "PluginRequestId")
  }

  lemma PluginRequestIdRoundTrip(id: PluginRequestId)
    ensures DecodePluginRequestId(EncodePluginRequestId(id)) == Ok(id)
  {
    var cs := PluginRequestIdAttempts(EncodePluginRequestId(id));
    match id
    case String(_) =>
    case Number(_) => FirstMatchAt(cs, "PluginRequestId", 1);
  }

  /** An integer outside the `i64` range, above or below, is not a request id. */
  lemma OutOfRangeIdRejected(i: int)
    requires i < -0x8000_0000_0000_0000 || i >= 0x8000_0000_0000_0000
    ensures DecodePluginRequestId(JInt(i)) == Err(NoVariantMatched("PluginRequestId"))
  {
  }

  // ---------------------------------------------------------------------
  // PluginRequestContext and PluginNotificationContext

  datatype PluginRequestContext = PluginRequestContext(meta: Object, id: PluginRequestId)

  function EncodePluginRequestContext(c: PluginRequestContext): Json {
    JObj(map["_meta" := EncodeObject(c.meta), "id" := EncodePluginRequestId(c.id)])
  }

  /** Both members are required: `_meta` has no serde default, although it has a Rust one. */
  function DecodePluginRequestContext(j: Json): (r: Result<PluginRequestContext>)
    ensures j.JObj? && "_meta" !in j.fields ==> r == Err(MissingField("_meta"))
    ensures r.Ok? ==> j.JObj? && "_meta" in j.fields && "id" in j.fields
  {
    var obj :- AsObject(j, "PluginRequestContext");
    var meta :- Required(obj, "_meta", DecodeObject);
    var id :- Required(obj, "id", DecodePluginRequestId);
    Ok(PluginRequestContext(meta, id))
  }

  lemma PluginRequestContextRoundTrip(c: PluginRequestContext)
    ensures DecodePluginRequestContext(EncodePluginRequestContext(c)) == Ok(c)
  {
    ObjectRoundTrip(c.meta);
    PluginRequestIdRoundTrip(c.id);
  }

  datatype PluginNotificationContext = PluginNotificationContext(meta: Object)

  function EncodePluginNotificationContext(c: PluginNotificationContext): Json {
    JObj(map["_meta" := EncodeObject(c.meta)])
  }

  function DecodePluginNotificationContext(j: Json): (r: Result<PluginNotificationContext>)
    ensures j.JObj? && "_meta" !in j.fields ==> r == Err(MissingField("_meta"))
  {
    var obj :- AsObject(j, "PluginNotificationContext");
    var meta :- Required(obj, "_meta", DecodeObject);
    Ok(PluginNotificationContext(meta))
  }

  lemma PluginNotificationContextRoundTrip(c: PluginNotificationContext)
    ensures DecodePluginNotificationContext(EncodePluginNotificationContext(c)) == Ok(c)
  {
    ObjectRoundTrip(c.meta);
  }
}
