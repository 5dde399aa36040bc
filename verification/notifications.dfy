/**
 * Log messages and progress reports a plugin sends to the host.
 */
module Notifications {
  import opened Json

  // ---------------------------------------------------------------------
  // LoggingLevel

  /** Syslog-style severities, written in lower case; `Debug` is only the Rust default. */
  datatype LoggingLevel = Debug | Info | Notice | Warning | Error | Critical | Alert | Emergency

  function LevelName(l: LoggingLevel): string {
    match l
    case Debug => "debug"
    case Info => "info"
    case Notice => "notice"
    case Warning => "warning"
    case Error => "error"
    case Critical => "critical"
    case Alert => "alert"
    case Emergency => "emergency"
  }

  function EncodeLoggingLevel(l: LoggingLevel): Json { JStr(LevelName(l)) }

  /** Exactly the eight lower-case names are levels; any other string is an unknown variant. */
  function DecodeLoggingLevel(j: Json): (r: Result<LoggingLevel>)
    ensures r.Ok? <==> j.JStr? && j.s in {"debug", "info", "notice", "warning", "error", "critical", "alert", "emergency"}
    ensures r.Ok? ==> LevelName(r.value) == j.s
    ensures j.JStr? && r.Err? ==> r.error == UnknownVariant(j.s)
  {
    var s :- DecodeString(j);
    match s
    case "debug" => Ok(Debug)
    case "info" => Ok(Info)
    case "notice" => Ok(Notice)
    case "warning" => Ok(Warning)
    case "error" => Ok(Error)
    case "critical" => Ok(Critical)
    case "alert" => Ok(Alert)
    case "emergency" => Ok(Emergency)
    case _ => Err(UnknownVariant(s))
  }

  lemma LoggingLevelRoundTrip(l: LoggingLevel)
    ensures DecodeLoggingLevel(EncodeLoggingLevel(l)) == Ok(l)
  {
  }

  // ---------------------------------------------------------------------
  // LoggingMessageNotificationParam

  /** `data` is any JSON value, `null` included. */
  datatype LoggingMessageNotificationParam = LoggingMessageNotificationParam(data: Json, level: LoggingLevel, logger: Option<string>)

  function EncodeLoggingMessage(x: LoggingMessageNotificationParam): (j: Json)
    ensures j.JObj? && "data" in j.fields && j.fields["data"] == x.data
    ensures "logger" in j.fields <==> x.logger.Some?
  {
    var obj := map["data" := x.data, "level" := EncodeLoggingLevel(x.level)];
    JObj(WithOptional(obj, "logger", x.logger, EncodeString))
  }

  /** `data` and `level` are required; `data` is taken as it is. */
  function DecodeLoggingMessage(j: Json): (r: Result<LoggingMessageNotificationParam>)
    ensures r.Ok? ==> j.JObj? && "data" in j.fields && r.value.data == j.fields["data"]
    ensures r.Ok? ==> "level" in j.fields && DecodeLoggingLevel(j.fields["level"]) == Ok(r.value.level)
    ensures j.JObj? && "data" !in j.fields ==> r == Err(MissingField("data"))
  {
    var obj :- AsObject(j, "LoggingMessageNotificationParam");
    var data :- Required(obj, "data", DecodeValue);
    var level :- Required(obj, "level", DecodeLoggingLevel);
    var logger :- Optional(obj, "logger", DecodeString);
    Ok(LoggingMessageNotificationParam(data, level, logger))
  }

  /** Unlike an optional value, required `data` survives even when it is `null`. */
  lemma LoggingMessageRoundTrip(x: LoggingMessageNotificationParam)
    ensures DecodeLoggingMessage(EncodeLoggingMessage(x)) == Ok(x)
  {
    OptionalRoundTrip(EncodeLoggingMessage(x).fields, "logger", x.logger, EncodeString, DecodeString);
  }

  // ---------------------------------------------------------------------
  // ProgressNotificationParam

  datatype ProgressNotificationParam = ProgressNotificationParam(message: Option<string>, progress: real, progressToken: string, total: Option<real>)

  function EncodeProgress(x: ProgressNotificationParam): (j: Json)
    ensures j.JObj? && "progress" in j.fields && "progressToken" in j.fields
    ensures ("message" in j.fields <==> x.message.Some?) && ("total" in j.fields <==> x.total.Some?)
  {
    var obj := map["progress" := EncodeFloat(x.progress), "progressToken" := JStr(x.progressToken)];
    var obj := WithOptional(obj, "message", x.message, EncodeString);
    JObj(WithOptional(obj, "total", x.total, EncodeFloat))
  }

  /** The token is a string; a number in its place is rejected. Progress may be written as an integer. */
  function DecodeProgress(j: Json): (r: Result<ProgressNotificationParam>)
    ensures r.Ok? ==> j.JObj? && "progressToken" in j.fields && j.fields["progressToken"] == JStr(r.value.progressToken)
    ensures r.Ok? ==> "progress" in j.fields && j.fields["progress"] in {JInt(r.value.progress.Floor), JFloat(r.value.progress)}
  {
    var obj :- AsObject(j, "ProgressNotificationParam");
    var message :- Optional(obj, "message", DecodeString);
    var progress :- Required(obj, "progress", DecodeFloat);
    var progressToken :- Required(obj, "progressToken", DecodeString);
    var total :- Optional(obj, "total", DecodeFloat);
    Ok(ProgressNotificationParam(message, progress, progressToken, total))
  }

  lemma ProgressRoundTrip(x: ProgressNotificationParam)
    ensures DecodeProgress(EncodeProgress(x)) == Ok(x)
  {
    var obj := EncodeProgress(x).fields;
    OptionalRoundTrip(obj, "message", x.message, EncodeString, DecodeString);
    OptionalRoundTrip(obj, "total", x.total, EncodeFloat, DecodeFloat);
  }

  // ---------------------------------------------------------------------
  // KeyringEntryId

  /** Names a secret in the host's keyring by service and user. */
  datatype KeyringEntryId = KeyringEntryId(service: string, user: string)

  function EncodeKeyringEntryId(x: KeyringEntryId): Json {
    JObj(map["service" := JStr(x.service), "user" := JStr(x.user)])
  }

  function DecodeKeyringEntryId(j: Json): (r: Result<KeyringEntryId>)
    ensures r.Ok? <==> j.JObj? && "service" in j.fields && j.fields["service"].JStr? && "user" in j.fields && j.fields["user"].JStr?
    ensures r.Ok? ==> r.value == KeyringEntryId(j.fields["service"].s, j.fields["user"].s)
  {
    var obj :- AsObject(j, "KeyringEntryId");
    var service :- Required(obj, "service", DecodeString);
    var user :- Required(obj, "user", DecodeString);
    Ok(KeyringEntryId(service, user))
  }

  lemma KeyringEntryIdRoundTrip(x: KeyringEntryId)
    ensures DecodeKeyringEntryId(EncodeKeyringEntryId(x)) == Ok(x)
  {
  }
}
