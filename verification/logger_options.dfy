/** `createLoggerOptions`: from the configuration to winston's options, that
    is the level, the default metadata and the list of transports with the
    record filter of each log file; plus the pretty console line. Transport
    objects, directory creation and time formatting are not modelled. */
module LoggerOptions {
  import opened Wrappers
  import opened AuthTypes
  import opened LoggerEnv

  const DefaultMaxSize: int := 10 * 1024 * 1024
  const DefaultMaxFiles: int := 5
  const DefaultDir := "logs"
  const DefaultAppName := "base_code_nestjs_server"

  // ---------------------------------------------------------------------
  // Record filters
  // ---------------------------------------------------------------------

  /** The two fields of a log record the file filters read. */
  datatype Info = Info(level: Option<string>, logType: Option<string>)

  predicate IsErrorLevel(level: Option<string>) {
    level == Some("error") || level == Some("fatal")
  }

  predicate IsAccessLog(info: Info) { info.logType == Some("access") }

  predicate IsAuditLog(info: Info) { info.logType == Some("audit") }

  /** The `filterBy` predicate of each log file. */
  predicate Accepts(kind: FileKind, info: Info) {
    match kind
    case AppFile => !IsErrorLevel(info.level) && !IsAccessLog(info) && !IsAuditLog(info)
    case ErrorFile => IsErrorLevel(info.level)
    case AccessFile => IsAccessLog(info)
    case AuditFile => IsAuditLog(info)
  }

  /** The app file takes exactly the records no other file takes, so every
      record is accepted by some file filter. */
  lemma FiltersCoverEveryRecord(info: Info)
    ensures Accepts(AppFile, info) <==> !Accepts(ErrorFile, info) && !Accepts(AccessFile, info) && !Accepts(AuditFile, info)
    ensures exists kind :: Accepts(kind, info)
  {
    if !Accepts(AppFile, info) {
      if IsErrorLevel(info.level) { assert Accepts(ErrorFile, info); }
      else if IsAccessLog(info) { assert Accepts(AccessFile, info); }
      else { assert Accepts(AuditFile, info); }
    }
  }

  // ---------------------------------------------------------------------
  // Resolved settings
  // ---------------------------------------------------------------------

  /** What `createLoggerOptions` reads: `app.env`, `app.name` and the
      `logger` namespace. */
  datatype Source = Source(appEnv: Option<string>, appName: Option<string>, logger: LoggerSettings)

  function EnvName(src: Source): string { src.appEnv.GetOr("development") }

  predicate IsProd(src: Source) { EnvName(src) == "production" }

  function Level(src: Source): (level: string)
    ensures src.logger.level.None? && IsProd(src) ==> level == "info"
    ensures src.logger.level.None? && !IsProd(src) ==> level == "debug"
    ensures src.logger.level.Some? ==> level == src.logger.level.value
  {
    src.logger.level.GetOr(if IsProd(src) then "info" else "debug")
  }

  /** JSON output: as configured, else on in production only. */
  function JsonEnabled(src: Source): (on: bool)
    ensures src.logger.json.Some? ==> on == src.logger.json.value
    ensures src.logger.json.None? ==> (on <==> IsProd(src))
  {
    src.logger.json.GetOr(IsProd(src))
  }

  /** The console transport: as configured, else on. */
  function ConsoleEnabled(src: Source): (on: bool)
    ensures src.logger.consoleEnabled.Some? ==> on == src.logger.consoleEnabled.value
    ensures src.logger.consoleEnabled.None? ==> on
  {
    src.logger.consoleEnabled.GetOr(true)
  }

  /** Colours: as configured, else on outside production only. */
  function Colorize(src: Source): (on: bool)
    ensures src.logger.consoleColorize.Some? ==> on == src.logger.consoleColorize.value
    ensures src.logger.consoleColorize.None? ==> (on <==> !IsProd(src))
  {
    src.logger.consoleColorize.GetOr(!IsProd(src))
  }

  /** Each file's flag falls back to the master flag, which defaults to off. */
  function FileEnabled(src: Source, kind: FileKind): (on: bool)
    ensures src.logger.File(kind).enabled.Some? ==> on == src.logger.File(kind).enabled.value
    ensures src.logger.File(kind).enabled.None? ==> on == (src.logger.fileEnabled == Some(true))
  {
    src.logger.File(kind).enabled.GetOr(src.logger.fileEnabled.GetOr(false))
  }

  function FileName(src: Source, kind: FileKind): (name: string)
    ensures kind == AppFile ==>
              name == if src.logger.app.name.Some? then src.logger.app.name.value
                      else if src.logger.fileName.Some? then src.logger.fileName.value
                      else "app.log"
    ensures kind != AppFile && src.logger.File(kind).name.None? ==>
              name == match kind case ErrorFile => "error.log" case AccessFile => "access.log" case _ => "audit.log"
    ensures kind != AppFile && src.logger.File(kind).name.Some? ==> name == src.logger.File(kind).name.value
  {
    match kind
    case AppFile => src.logger.app.name.OrElse(src.logger.fileName).GetOr("app.log")
    case ErrorFile => src.logger.error.name.GetOr("error.log")
    case AccessFile => src.logger.access.name.GetOr("access.log")
    case AuditFile => src.logger.audit.name.GetOr("audit.log")
  }

  // ---------------------------------------------------------------------
  // Transports
  // ---------------------------------------------------------------------

  datatype ConsoleFormat = JsonFormat | PrettyFormat(colorize: bool)

  datatype Transport =
    | Console(format: ConsoleFormat)
    | File(kind: FileKind, dirname: string, filename: string, maxSize: int, maxFiles: int)

  datatype DefaultMeta = DefaultMeta(service: string, env: string)

  datatype Options = Options(level: string, defaultMeta: DefaultMeta, transports: seq<Transport>)

  function ConsoleTransport(src: Source): Transport {
    Console(if JsonEnabled(src) then JsonFormat else PrettyFormat(Colorize(src)))
  }

  function FileTransport(src: Source, kind: FileKind): Transport {
    File(kind, src.logger.fileDir.GetOr(DefaultDir), FileName(src, kind),
         src.logger.maxSize.GetOr(DefaultMaxSize), src.logger.maxFiles.GetOr(DefaultMaxFiles))
  }

  /** The position a transport takes in the list. */
  function Rank(t: Transport): nat {
    match t
    case Console(_) => 0
    case File(kind, _, _, _, _) =>
      match kind case AppFile => 1 case ErrorFile => 2 case AccessFile => 3 case AuditFile => 4
  }

  /** A one-element list when the transport is switched on, else empty. */
  function When(on: bool, t: Transport): seq<Transport> {
    if on then [t] else []
  }

  /** The transports pushed in turn: console, then the app, error, access and
      audit files. */
  function Pushed(src: Source): seq<Transport> {
    When(ConsoleEnabled(src), ConsoleTransport(src))
    + When(FileEnabled(src, AppFile), FileTransport(src, AppFile))
    + When(FileEnabled(src, ErrorFile), FileTransport(src, ErrorFile))
    + When(FileEnabled(src, AccessFile), FileTransport(src, AccessFile))
    + When(FileEnabled(src, AuditFile), FileTransport(src, AuditFile))
  }

  /** An empty list gets a pretty console transport so that nothing is lost. */
  function Transports(src: Source): seq<Transport> {
    var pushed := Pushed(src);
    if pushed == [] then [Console(PrettyFormat(Colorize(src)))] else pushed
  }

  method CreateLoggerOptions(src: Source) returns (opts: Options)
    ensures opts.level == Level(src)
    ensures opts.defaultMeta == DefaultMeta(src.appName.GetOr(DefaultAppName), EnvName(src))
    ensures opts.transports == Transports(src)
  {
    var transportsList: seq<Transport> := [];
    if ConsoleEnabled(src) {
      transportsList := transportsList + [ConsoleTransport(src)];
    }
    ghost var stage := When(ConsoleEnabled(src), ConsoleTransport(src));
    assert transportsList == stage;
    if FileEnabled(src, AppFile) {
      transportsList := transportsList + [FileTransport(src, AppFile)];
    }
    stage := stage + When(FileEnabled(src, AppFile), FileTransport(src, AppFile));
    assert transportsList == stage;
    if FileEnabled(src, ErrorFile) {
      transportsList := transportsList + [FileTransport(src, ErrorFile)];
    }
    stage := stage + When(FileEnabled(src, ErrorFile), FileTransport(src, ErrorFile));
    assert transportsList == stage;
    if FileEnabled(src, AccessFile) {
      transportsList := transportsList + [FileTransport(src, AccessFile)];
    }
    stage := stage + When(FileEnabled(src, AccessFile), FileTransport(src, AccessFile));
    assert transportsList == stage;
    if FileEnabled(src, AuditFile) {
      transportsList := transportsList + [FileTransport(src, AuditFile)];
    }
    stage := stage + When(FileEnabled(src, AuditFile), FileTransport(src, AuditFile));
    assert transportsList == stage == Pushed(src);
    if |transportsList| == 0 {
      transportsList := transportsList + [Console(PrettyFormat(Colorize(src)))];
    }
    opts := Options(Level(src), DefaultMeta(src.appName.GetOr(DefaultAppName), EnvName(src)), transportsList);
  }

  /** The list is never empty, and the console, when on, comes first. */
  lemma TransportsNonEmpty(src: Source)
    ensures |Transports(src)| >= 1
    ensures ConsoleEnabled(src) ==> Transports(src)[0] == ConsoleTransport(src)
  {
  }

  /** Transports appear in the order console, app, error, access, audit, each
      at most once. */
  lemma TransportsOrdered(src: Source)
    ensures StrictlyRanked(Transports(src))
  {
    PushedInRankOrder(ConsoleEnabled(src), ConsoleTransport(src),
                      FileEnabled(src, AppFile), FileTransport(src, AppFile),
                      FileEnabled(src, ErrorFile), FileTransport(src, ErrorFile),
                      FileEnabled(src, AccessFile), FileTransport(src, AccessFile),
                      FileEnabled(src, AuditFile), FileTransport(src, AuditFile));
  }

  /** Five optional transports of ranks 0 to 4, pushed in turn, come out in
      rank order. */
  lemma PushedInRankOrder(on0: bool, t0: Transport, on1: bool, t1: Transport, on2: bool, t2: Transport,
                          on3: bool, t3: Transport, on4: bool, t4: Transport)
    requires Rank(t0) == 0 && Rank(t1) == 1 && Rank(t2) == 2 && Rank(t3) == 3 && Rank(t4) == 4
    ensures StrictlyRanked(When(on0, t0) + When(on1, t1) + When(on2, t2) + When(on3, t3) + When(on4, t4))
  {
    var s0: seq<Transport> := [];
    AppendRanked(s0, 0, on0, t0);
    var s1 := s0 + When(on0, t0);
    assert s1 == When(on0, t0);
    AppendRanked(s1, 1, on1, t1);
    var s2 := s1 + When(on1, t1);
    AppendRanked(s2, 2, on2, t2);
    var s3 := s2 + When(on2, t2);
    AppendRanked(s3, 3, on3, t3);
    var s4 := s3 + When(on3, t3);
    AppendRanked(s4, 4, on4, t4);
  }

  /** Ranks strictly increase along the list. */
  predicate StrictlyRanked(ts: seq<Transport>) {
    forall i, j :: 0 <= i < j < |ts| ==> Rank(ts[i]) < Rank(ts[j])
  }

  predicate RankedBelow(ts: seq<Transport>, n: nat) {
    forall i :: 0 <= i < |ts| ==> Rank(ts[i]) < n
  }

  /** Appending a transport of rank `n` or more keeps the ranks increasing. */
  lemma AppendRanked(ts: seq<Transport>, n: nat, on: bool, t: Transport)
    requires StrictlyRanked(ts) && RankedBelow(ts, n) && n == Rank(t)
    ensures StrictlyRanked(ts + When(on, t)) && RankedBelow(ts + When(on, t), n + 1)
  {
  }

  /** A file transport is present exactly when that file is enabled, and it
      carries that file's settings. */
  lemma FileTransportIffEnabled(src: Source, kind: FileKind)
    ensures FileTransport(src, kind) in Transports(src) <==> FileEnabled(src, kind)
  {
  }

  lemma FileTransportsConfigured(src: Source, t: Transport)
    requires t in Transports(src) && t.File?
    ensures t == FileTransport(src, t.kind) && FileEnabled(src, t.kind)
  {
  }

  /** The fallback console appears only when the console and every file are
      off. */
  lemma FallbackOnlyWhenNothingEnabled(src: Source)
    ensures !ConsoleEnabled(src) && (forall kind :: !FileEnabled(src, kind)) ==>
              Transports(src) == [Console(PrettyFormat(Colorize(src)))]
    ensures !ConsoleEnabled(src) && (exists kind :: FileEnabled(src, kind)) ==>
              forall t :: t in Transports(src) ==> t.File?
  {
  }

  /** With no explicit file settings, the master flag alone decides: unset,
      only the console is configured. */
  lemma MasterFlagDefaultsOff(src: Source, kind: FileKind)
    requires src.logger.File(kind).enabled.None? && src.logger.fileEnabled.None?
    ensures !FileEnabled(src, kind)
  {
  }

  // ---------------------------------------------------------------------
  // The pretty console line
  // ---------------------------------------------------------------------

  /** A record's message: a string, or anything else, shown as its JSON text. */
  datatype Message = TextMessage(text: string) | StructuredMessage(json: string)

  /** The record fields the pretty line reads; `metaKeys` and `metaJson` are
      the keys and the JSON text of the remaining fields. */
  datatype PrettyInfo = PrettyInfo(
    timestamp: string,
    level: string,
    message: Message,
    context: Option<string>,
    trace: Option<string>,
    stack: Option<string>,
    metaKeys: seq<string>,
    metaJson: string)

  function ContextLabel(context: Option<string>): string {
    if Truthy(context) then " [" + context.value + "]" else ""
  }

  function MessageText(m: Message): string {
    match m case TextMessage(text) => text case StructuredMessage(json) => json
  }

  function MetaString(info: PrettyInfo): string {
    if |info.metaKeys| > 0 then " " + info.metaJson else ""
  }

  /** `trace ?? stack`, on a new line when it is truthy. */
  function TraceString(info: PrettyInfo): string {
    var traceInfo := info.trace.OrElse(info.stack);
    if Truthy(traceInfo) then "\n" + traceInfo.value else ""
  }

  function PrettyLine(info: PrettyInfo): string {
    info.timestamp + " " + info.level + ContextLabel(info.context) + " " + MessageText(info.message)
    + MetaString(info) + TraceString(info)
  }

  /** Without context, metadata or trace the line is just time, level and
      message. */
  lemma PlainLine(info: PrettyInfo)
    requires !Truthy(info.context) && info.metaKeys == [] && info.trace.None? && info.stack.None?
    ensures PrettyLine(info) == info.timestamp + " " + info.level + " " + MessageText(info.message)
  {
  }

  /** A context shows as ' [context]' right after the level. */
  lemma ContextAfterLevel(info: PrettyInfo)
    requires Truthy(info.context)
    ensures var head := info.timestamp + " " + info.level + " [" + info.context.value + "] ";
            |head| <= |PrettyLine(info)| && PrettyLine(info)[..|head|] == head
  {
    var head := info.timestamp + " " + info.level + " [" + info.context.value + "] ";
    var tail := MessageText(info.message) + MetaString(info) + TraceString(info);
    assert PrettyLine(info) == head + tail;
  }

  /** A truthy trace ends the line, on its own line; the stack is then not
      shown. */
  lemma TraceEndsLine(info: PrettyInfo)
    requires Truthy(info.trace)
    ensures var suffix := "\n" + info.trace.value;
            |suffix| <= |PrettyLine(info)| && PrettyLine(info)[|PrettyLine(info)| - |suffix|..] == suffix
  {
    var suffix := "\n" + info.trace.value;
    var head := info.timestamp + " " + info.level + ContextLabel(info.context) + " " + MessageText(info.message)
                + MetaString(info);
    assert PrettyLine(info) == head + suffix;
  }

  /** `??` keeps an empty trace, so an empty trace hides a stack that would
      otherwise be shown. */
  lemma EmptyTraceHidesStack(info: PrettyInfo)
    requires info.trace == Some("")
    ensures PrettyLine(info) == PrettyLine(info.(trace := None, stack := None))
  {
  }
}
