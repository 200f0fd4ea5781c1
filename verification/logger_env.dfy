/** The `logger` configuration namespace: the environment variables read
    for logging, parsed with `parseBoolean` and `parseNumber`, with the
    per-file enable flags falling back to the master flag. */
module LoggerEnv {
  import opened Wrappers
  import opened Text

  /** `process.env`: every present variable is a string. */
  type Env = map<string, string>

  function Get(env: Env, key: string): (v: Option<string>)
    ensures v.Some? <==> key in env
    ensures v.Some? ==> v.value == env[key]
  {
    if key in env then Some(env[key]) else None
  }

  /** `parseBoolean`: exactly the text 'true' is true. */
  function ParseBoolean(v: Option<string>): (b: Option<bool>)
    ensures b.None? <==> v.None?
    ensures b == Some(true) <==> v == Some("true")
  {
    match v
    case None => None
    case Some(s) => Some(s == "true")
  }

  // ---------------------------------------------------------------------
  // parseNumber: Number.parseInt(value, 10), NaN mapped to undefined
  // ---------------------------------------------------------------------

  /** The white space and line terminators `parseInt` skips. */
  predicate IsJsWhitespace(c: char) {
    || c in {'\t', '\n', '\U{B}', '\U{C}', '\r', ' ', '\U{A0}', '\U{1680}', '\U{2028}', '\U{2029}',
             '\U{202F}', '\U{205F}', '\U{3000}', '\U{FEFF}'}
    || '\U{2000}' <= c <= '\U{200A}'
  }

  function TrimStart(s: string): (r: string)
    ensures |r| <= |s| && r == s[|s| - |r|..]
    ensures r == [] || !IsJsWhitespace(r[0])
    ensures forall i :: 0 <= i < |s| - |r| ==> IsJsWhitespace(s[i])
  {
    if s != [] && IsJsWhitespace(s[0]) then TrimStart(s[1..]) else s
  }

  /** The longest prefix made of decimal digits. */
  function DigitPrefix(s: string): (r: string)
    ensures AllDigits(r) && |r| <= |s| && r == s[..|r|]
    ensures |r| == |s| || !IsDigit(s[|r|])
  {
    if s == [] || !IsDigit(s[0]) then [] else [s[0]] + DigitPrefix(s[1..])
  }

  /** An optional sign at the start: its factor and the rest. */
  function SplitSign(s: string): (r: (int, string))
    ensures r.0 == -1 <==> |s| > 0 && s[0] == '-'
    ensures r.0 == 1 <==> !(|s| > 0 && s[0] == '-')
    ensures r.1 == if |s| > 0 && s[0] in {'-', '+'} then s[1..] else s
  {
    if |s| > 0 && s[0] == '-' then (-1, s[1..])
    else if |s| > 0 && s[0] == '+' then (1, s[1..])
    else (1, s)
  }

  function ParseNumber(v: Option<string>): (n: Option<int>)
    ensures v.None? ==> n.None?
    ensures v.Some? ==>
              var (sign, body) := SplitSign(TrimStart(v.value));
              (n.None? <==> DigitPrefix(body) == []) &&
              (n.Some? ==> n.value == sign * DecimalValue(DigitPrefix(body)))
  {
    match v
    case None => None
    case Some(s) =>
      var (sign, body) := SplitSign(TrimStart(s));
      var digits := DigitPrefix(body);
      if digits == [] then None else Some(sign * DecimalValue(digits))
  }

  lemma {:induction false} DigitPrefixOfDigits(d: string, rest: string)
    requires AllDigits(d)
    requires rest == [] || !IsDigit(rest[0])
    ensures DigitPrefix(d + rest) == d
  {
    if d != [] {
      assert (d + rest)[1..] == d[1..] + rest;
      DigitPrefixOfDigits(d[1..], rest);
      assert [d[0]] + d[1..] == d;
    }
  }

  /** `parseInt` reads back what `toString` wrote, and stops at the first
      character that is not a digit: '8080abc' is 8080. */
  lemma DecimalPrefixParsed(n: nat, rest: string)
    requires rest == [] || !IsDigit(rest[0])
    ensures ParseNumber(Some(DecimalString(n) + rest)) == Some(n)
  {
    var d := DecimalString(n);
    var s := d + rest;
    assert s[0] == d[0] && IsDigit(s[0]);
    assert !IsJsWhitespace(s[0]);
    assert TrimStart(s) == s;
    assert SplitSign(s) == (1, s);
    DigitPrefixOfDigits(d, rest);
  }

  /** A leading minus sign negates. */
  lemma NegativeParsed(n: nat, rest: string)
    requires rest == [] || !IsDigit(rest[0])
    ensures ParseNumber(Some("-" + DecimalString(n) + rest)) == Some(0 - n)
  {
    var d := DecimalString(n);
    var s := "-" + (d + rest);
    assert s == "-" + d + rest;
    assert s[0] == '-' && s[1..] == d + rest;
    assert !IsJsWhitespace(s[0]);
    assert TrimStart(s) == s;
    assert SplitSign(s) == (-1, d + rest);
    DigitPrefixOfDigits(d, rest);
    assert DigitPrefix(d + rest) == d && DecimalValue(d) == n;
  }

  /** Text without a leading digit (after white space and sign) is NaN,
      which becomes undefined. */
  lemma NoDigitsUndefined(s: string)
    requires s != [] && !IsDigit(s[0]) && !IsJsWhitespace(s[0]) && s[0] !in {'-', '+'}
    ensures ParseNumber(Some(s)) == None
  {
  }

  /** `resolveFileEnabled`: an explicit value wins, even `false`. */
  function ResolveFileEnabled(master: Option<bool>, value: Option<bool>): (b: Option<bool>)
    ensures value.Some? ==> b == value
    ensures value.None? ==> b == master
  {
    if value.Some? then value else master
  }

  // ---------------------------------------------------------------------
  // loggerConfig
  // ---------------------------------------------------------------------

  datatype FileKind = AppFile | ErrorFile | AccessFile | AuditFile {
    function EnabledKey(): string {
      match this
      case AppFile => "LOG_APP_FILE_ENABLED"
      case ErrorFile => "LOG_ERROR_FILE_ENABLED"
      case AccessFile => "LOG_ACCESS_FILE_ENABLED"
      case AuditFile => "LOG_AUDIT_FILE_ENABLED"
    }
    function NameKey(): string {
      match this
      case AppFile => "LOG_APP_FILE_NAME"
      case ErrorFile => "LOG_ERROR_FILE_NAME"
      case AccessFile => "LOG_ACCESS_FILE_NAME"
      case AuditFile => "LOG_AUDIT_FILE_NAME"
    }
  }

  datatype FileSettings = FileSettings(enabled: Option<bool>, name: Option<string>)

  datatype LoggerSettings = LoggerSettings(
    level: Option<string>,
    json: Option<bool>,
    consoleEnabled: Option<bool>,
    consoleColorize: Option<bool>,
    fileEnabled: Option<bool>,
    fileDir: Option<string>,
    fileName: Option<string>,
    maxSize: Option<int>,
    maxFiles: Option<int>,
    app: FileSettings,
    error: FileSettings,
    access: FileSettings,
    audit: FileSettings)
  {
    function File(kind: FileKind): FileSettings {
      match kind
      case AppFile => app
      case ErrorFile => error
      case AccessFile => access
      case AuditFile => audit
    }
  }

  /** One file's settings: its own flag wins over `LOG_FILE_ENABLED`, and
      only the app file's name falls back to `LOG_FILE_NAME`. */
  function FileFromEnv(env: Env, kind: FileKind): (f: FileSettings)
    ensures f.enabled == if kind.EnabledKey() in env then Some(env[kind.EnabledKey()] == "true")
                         else ParseBoolean(Get(env, "LOG_FILE_ENABLED"))
    ensures kind == AppFile ==>
              f.name == if kind.NameKey() in env then Some(env[kind.NameKey()]) else Get(env, "LOG_FILE_NAME")
    ensures kind != AppFile ==> f.name == Get(env, kind.NameKey())
  {
    FileSettings(
      ResolveFileEnabled(ParseBoolean(Get(env, "LOG_FILE_ENABLED")), ParseBoolean(Get(env, kind.EnabledKey()))),
      if kind == AppFile then Get(env, kind.NameKey()).OrElse(Get(env, "LOG_FILE_NAME")) else Get(env, kind.NameKey()))
  }

  /** `loggerConfig`. */
  function LoggerConfig(env: Env): (s: LoggerSettings)
    ensures forall kind: FileKind :: s.File(kind) == FileFromEnv(env, kind)
    ensures s.fileEnabled == ParseBoolean(Get(env, "LOG_FILE_ENABLED"))
    ensures s.level == Get(env, "LOG_LEVEL") && s.fileDir == Get(env, "LOG_FILE_DIR") && s.fileName == Get(env, "LOG_FILE_NAME")
    ensures s.json == ParseBoolean(Get(env, "LOG_JSON"))
    ensures s.consoleEnabled == ParseBoolean(Get(env, "LOG_CONSOLE_ENABLED"))
    ensures s.consoleColorize == ParseBoolean(Get(env, "LOG_CONSOLE_COLORIZE"))
    ensures s.maxSize == ParseNumber(Get(env, "LOG_FILE_MAXSIZE")) && s.maxFiles == ParseNumber(Get(env, "LOG_FILE_MAXFILES"))
  {
    LoggerSettings(
      Get(env, "LOG_LEVEL"),
      ParseBoolean(Get(env, "LOG_JSON")),
      ParseBoolean(Get(env, "LOG_CONSOLE_ENABLED")),
      ParseBoolean(Get(env, "LOG_CONSOLE_COLORIZE")),
      ParseBoolean(Get(env, "LOG_FILE_ENABLED")),
      Get(env, "LOG_FILE_DIR"),
      Get(env, "LOG_FILE_NAME"),
      ParseNumber(Get(env, "LOG_FILE_MAXSIZE")),
      ParseNumber(Get(env, "LOG_FILE_MAXFILES")),
      FileFromEnv(env, AppFile),
      FileFromEnv(env, ErrorFile),
      FileFromEnv(env, AccessFile),
      FileFromEnv(env, AuditFile))
  }
}
