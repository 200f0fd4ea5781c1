/** `LogWriterService.write`: which method of the application logger a queued
    log job is handed to, and with which message. The logger itself is not
    part of this model; a call is returned as a value. */
module LogWriter {
  import opened Wrappers
  import opened AuthTypes

  datatype LogType = Access | Audit

  datatype LogLevel = Info | Warn | Debug | Error | Fatal

  /** A metadata value: a string, or any other JSON value by its text. */
  datatype Value = Str(text: string) | Raw(json: string)

  type Fields = map<string, Value>

  datatype LogJob = LogJob(
    logType: Option<LogType>,
    level: Option<LogLevel>,
    message: string,
    context: Option<string>,
    meta: Option<Fields>,
    trace: Option<string>)

  /** What the logger receives as its message: the plain string or an object. */
  datatype LogMessage = Plain(text: string) | Record(fields: Fields)

  datatype SinkCall =
    | AccessCall(message: string, meta: Option<Fields>, context: Option<string>)
    | AuditCall(message: string, meta: Option<Fields>, context: Option<string>)
    | WarnCall(body: LogMessage, context: Option<string>)
    | DebugCall(body: LogMessage, context: Option<string>)
    | ErrorCall(body: LogMessage, trace: Option<string>, context: Option<string>)
    | LogCall(body: LogMessage, context: Option<string>)

  /** `meta ? { message, ...meta } : message`: later keys win, so a `message`
      key in the metadata replaces the job's message. */
  function BaseMessage(job: LogJob): (m: LogMessage)
    ensures job.meta.None? ==> m == Plain(job.message)
    ensures job.meta.Some? ==>
              m.Record? && m.fields.Keys == job.meta.value.Keys + {"message"}
              && (forall k :: k in job.meta.value ==> m.fields[k] == job.meta.value[k])
              && ("message" !in job.meta.value ==> m.fields["message"] == Str(job.message))
  {
    match job.meta
    case None => Plain(job.message)
    case Some(meta) => Record(map["message" := Str(job.message)] + meta)
  }

  /** `{ message, level: 'fatal', ...(meta ?? {}) }`, plus `trace` when the
      trace is truthy. */
  function FatalMessage(job: LogJob): (fields: Fields)
    ensures var meta := job.meta.GetOr(map[]);
            && fields.Keys == meta.Keys + {"message", "level"} + (if Truthy(job.trace) then {"trace"} else {})
            && (Truthy(job.trace) ==> fields["trace"] == Str(job.trace.value))
            && (forall k :: k in meta && k != "trace" ==> fields[k] == meta[k])
            && (!Truthy(job.trace) && "trace" in meta ==> fields["trace"] == meta["trace"])
            && ("message" !in meta ==> fields["message"] == Str(job.message))
            && ("level" !in meta ==> fields["level"] == Str("fatal"))
  {
    var base := map["message" := Str(job.message), "level" := Str("fatal")] + job.meta.GetOr(map[]);
    if Truthy(job.trace) then base["trace" := Str(job.trace.value)] else base
  }

  function Write(job: LogJob): (call: SinkCall)
    ensures job.logType == Some(Access) <==> call.AccessCall?
    ensures job.logType == Some(Audit) <==> call.AuditCall?
    ensures call.AccessCall? || call.AuditCall? ==>
              call.message == job.message && call.meta == job.meta && call.context == job.context
    ensures job.logType.None? ==>
              && (job.level == Some(Warn) <==> call.WarnCall?)
              && (job.level == Some(Debug) <==> call.DebugCall?)
              && (job.level == Some(Error) <==> call.ErrorCall?)
              && (job.level == Some(Warn) ==> call == WarnCall(BaseMessage(job), job.context))
              && (job.level == Some(Debug) ==> call == DebugCall(BaseMessage(job), job.context))
              && (job.level == Some(Error) ==> call == ErrorCall(BaseMessage(job), job.trace, job.context))
              && (job.level == Some(Fatal) ==> call == LogCall(Record(FatalMessage(job)), job.context))
              && (job.level == Some(Info) || job.level.None? ==> call == LogCall(BaseMessage(job), job.context))
  {
    if job.logType == Some(Access) then AccessCall(job.message, job.meta, job.context)
    else if job.logType == Some(Audit) then AuditCall(job.message, job.meta, job.context)
    else
      match job.level
      case Some(Warn) => WarnCall(BaseMessage(job), job.context)
      case Some(Debug) => DebugCall(BaseMessage(job), job.context)
      case Some(Error) => ErrorCall(BaseMessage(job), job.trace, job.context)
      case Some(Fatal) => LogCall(Record(FatalMessage(job)), job.context)
      case _ => LogCall(BaseMessage(job), job.context)
  }

  /** Access and audit jobs are routed by their type whatever their level. */
  lemma TypeBeforeLevel(job: LogJob, level: Option<LogLevel>)
    requires job.logType.Some?
    ensures Write(job.(level := level)) == Write(job)
  {
    var other := job.(level := level);
    match job.logType.value
    case Access =>
      assert Write(other) == AccessCall(job.message, job.meta, job.context);
    case Audit =>
      assert Write(other) == AuditCall(job.message, job.meta, job.context);
  }

  /** A fatal job never reaches the error method: it is logged with a record
      whose level field reads 'fatal' unless the metadata sets one. */
  lemma FatalLoggedAsRecord(job: LogJob)
    requires job.logType.None? && job.level == Some(Fatal)
    ensures Write(job).LogCall? && Write(job).body.Record?
    ensures job.meta.None? ==> Write(job).body.fields["level"] == Str("fatal")
  {
  }
}
