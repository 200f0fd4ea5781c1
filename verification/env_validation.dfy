/** `validate` for the environment: the `EnvironmentVariables` constraint
    table and the assembly of the error message. Values are taken as already
    converted to their declared types; the conversion from strings is not
    modelled. */
module EnvValidation {
  import opened Wrappers
  import opened Text

  /** A configuration value after conversion; `Absent` is `undefined` or
      `null`, `NotANumber` a number that failed to parse. */
  datatype Value = Absent | Str(s: string) | Num(x: real) | NotANumber | Bool(b: bool)

  type Config = map<string, Value>

  function Get(config: Config, key: string): Value {
    if key in config then config[key] else Absent
  }

  /** One validation decorator. */
  datatype Check =
    | IsEnum(values: seq<string>)
    | IsString
    | IsNotEmpty
    | IsInt
    | Min(bound: int)
    | Max(bound: int)
    | IsBoolean

  predicate IsInteger(x: real) { x.Floor as real == x }

  predicate Holds(c: Check, v: Value) {
    match c
    case IsEnum(values) => v.Str? && v.s in values
    case IsString => v.Str?
    case IsNotEmpty => !v.Absent? && v != Str("")
    case IsInt => v.Num? && IsInteger(v.x)
    case Min(bound) => v.Num? && v.x >= bound as real
    case Max(bound) => v.Num? && v.x <= bound as real
    case IsBoolean => v.Bool?
  }

  /** A property's decorators; an optional property is not checked at all
      when it is absent. */
  datatype Rule = Rule(name: string, optional: bool, checks: seq<Check>)

  const NodeEnvValues: seq<string> := ["development", "test", "production"]

  function Required(name: string, checks: seq<Check>): Rule { Rule(name, false, checks) }
  function Optional(name: string, checks: seq<Check>): Rule { Rule(name, true, checks) }

  const NonEmptyString: seq<Check> := [IsString, IsNotEmpty]
  const Port: seq<Check> := [IsInt, Min(1), Max(65535)]

  /** The `EnvironmentVariables` class, property by property. */
  const Table: seq<Rule> := [
    Required("NODE_ENV", [IsEnum(NodeEnvValues)]),
    Required("APP_NAME", NonEmptyString),
    Required("APP_PORT", Port),
    Required("APP_URL", NonEmptyString),
    Optional("LOG_LEVEL", [IsString]),
    Optional("LOG_JSON", [IsBoolean]),
    Optional("LOG_CONSOLE_ENABLED", [IsBoolean]),
    Optional("LOG_CONSOLE_COLORIZE", [IsBoolean]),
    Optional("LOG_FILE_ENABLED", [IsBoolean]),
    Optional("LOG_FILE_DIR", [IsString]),
    Optional("LOG_FILE_NAME", [IsString]),
    Optional("LOG_FILE_MAXSIZE", [IsInt, Min(1)]),
    Optional("LOG_FILE_MAXFILES", [IsInt, Min(1)]),
    Optional("LOG_APP_FILE_ENABLED", [IsBoolean]),
    Optional("LOG_APP_FILE_NAME", [IsString]),
    Optional("LOG_ERROR_FILE_ENABLED", [IsBoolean]),
    Optional("LOG_ERROR_FILE_NAME", [IsString]),
    Optional("LOG_ACCESS_FILE_ENABLED", [IsBoolean]),
    Optional("LOG_ACCESS_FILE_NAME", [IsString]),
    Optional("LOG_AUDIT_FILE_ENABLED", [IsBoolean]),
    Optional("LOG_AUDIT_FILE_NAME", [IsString]),
    Required("DATABASE_URL", NonEmptyString),
    Optional("REDIS_HOST", [IsString]),
    Optional("REDIS_PORT", Port),
    Optional("REDIS_PASSWORD", [IsString]),
    Optional("REDIS_DB", [IsInt, Min(0)]),
    Optional("LOG_QUEUE_ENABLED", [IsBoolean]),
    Required("POSTGRES_HOST", NonEmptyString),
    Required("POSTGRES_PORT", Port),
    Required("POSTGRES_DB", NonEmptyString),
    Required("POSTGRES_USER", NonEmptyString),
    Required("POSTGRES_PASSWORD", NonEmptyString),
    Required("JWT_ACCESS_SECRET", NonEmptyString),
    Required("JWT_REFRESH_SECRET", NonEmptyString),
    Required("BCRYPT_ROUNDS", [IsInt, Min(4), Max(16)]),
    Required("TWO_FACTOR_ENCRYPTION_KEY", NonEmptyString),
    Required("SMTP_PORT", Port),
    Optional("EMAIL_VERIFY_TOKEN_TTL_MIN", [IsInt, Min(1), Max(1440)]),
    Optional("PASSWORD_RESET_TOKEN_TTL_MIN", [IsInt, Min(1), Max(1440)])
  ]

  /** The decorators of a rule that the value fails, in order. */
  function FailedChecks(checks: seq<Check>, v: Value): (failed: seq<Check>)
    ensures forall c :: c in failed <==> c in checks && !Holds(c, v)
    ensures failed == [] <==> forall i :: 0 <= i < |checks| ==> Holds(checks[i], v)
  {
    if checks == [] then []
    else (if Holds(checks[0], v) then [] else [checks[0]]) + FailedChecks(checks[1..], v)
  }

  predicate Satisfies(rule: Rule, v: Value) {
    (rule.optional && v.Absent?) || forall i :: 0 <= i < |rule.checks| ==> Holds(rule.checks[i], v)
  }

  /** A `ValidationError`: the property and the decorators it failed. */
  datatype Violation = Violation(property: string, failed: seq<Check>)

  function Violations(rules: seq<Rule>, config: Config): (vs: seq<Violation>)
    ensures vs == [] <==> forall i :: 0 <= i < |rules| ==> Satisfies(rules[i], Get(config, rules[i].name))
    ensures forall k :: 0 <= k < |vs| ==> vs[k].failed != []
  {
    if rules == [] then []
    else
      var rule := rules[0];
      var v := Get(config, rule.name);
      var rest := Violations(rules[1..], config);
      assert forall i :: 1 <= i < |rules| ==> rules[i] == rules[1..][i - 1];
      if Satisfies(rule, v) then rest
      else [ViolationOf(rule, config)] + rest
  }

  function ViolationOf(rule: Rule, config: Config): Violation {
    Violation(rule.name, FailedChecks(rule.checks, Get(config, rule.name)))
  }

  /** A failing rule is reported, with the decorators it failed. */
  lemma {:induction false} FailingRuleReported(rules: seq<Rule>, config: Config, i: nat)
    requires i < |rules| && !Satisfies(rules[i], Get(config, rules[i].name))
    ensures ViolationOf(rules[i], config) in Violations(rules, config)
  {
    if i > 0 {
      assert rules[i] == rules[1..][i - 1];
      FailingRuleReported(rules[1..], config, i - 1);
    }
  }

  /** Only failing rules are reported. */
  lemma {:induction false} ReportedRuleFails(rules: seq<Rule>, config: Config, v: Violation)
    requires v in Violations(rules, config)
    ensures exists i :: 0 <= i < |rules| && !Satisfies(rules[i], Get(config, rules[i].name))
                        && v == ViolationOf(rules[i], config)
  {
    if v != ViolationOf(rules[0], config) || Satisfies(rules[0], Get(config, rules[0].name)) {
      ReportedRuleFails(rules[1..], config, v);
      var j :| 0 <= j < |rules[1..]| && !Satisfies(rules[1..][j], Get(config, rules[1..][j].name))
               && v == ViolationOf(rules[1..][j], config);
      assert rules[j + 1] == rules[1..][j];
    }
  }

  predicate Valid(config: Config) {
    forall i :: 0 <= i < |Table| ==> Satisfies(Table[i], Get(config, Table[i].name))
  }

  const MessagePrefix := "Config validation error: "

  /** The library's message for a failed decorator on a property. */
  type Describe = (string, Check) -> string

  function ViolationText(v: Violation, describe: Describe): string {
    Join(seq(|v.failed|, i requires 0 <= i < |v.failed| => describe(v.property, v.failed[i])), ", ")
  }

  function ErrorMessage(vs: seq<Violation>, describe: Describe): string {
    Join(seq(|vs|, k requires 0 <= k < |vs| => ViolationText(vs[k], describe)), "; ")
  }

  /** `validate`: the configuration back when every rule holds, otherwise the
      error carrying every violation's messages. */
  function Validate(config: Config, describe: Describe): (r: Result<Config, string>)
    ensures r.Ok? <==> Valid(config)
    ensures r.Ok? ==> r.value == config
    ensures r.Err? ==>
              |MessagePrefix| <= |r.error| && r.error[..|MessagePrefix|] == MessagePrefix
              && r.error[|MessagePrefix|..] == ErrorMessage(Violations(Table, config), describe)
  {
    var vs := Violations(Table, config);
    if vs == [] then Ok(config)
    else
      var message := MessagePrefix + ErrorMessage(vs, describe);
      assert message[|MessagePrefix|..] == ErrorMessage(vs, describe);
      Err(message)
  }

  /** An integer in [lo, hi], or absent when the rule is optional. */
  predicate InRangeOrAbsent(rule: Rule, v: Value, lo: int, hi: int) {
    (rule.optional && v.Absent?) || (v.Num? && IsInteger(v.x) && lo as real <= v.x <= hi as real)
  }

  lemma RangeRule(rule: Rule, v: Value, lo: int, hi: int)
    requires rule.checks == [IsInt, Min(lo), Max(hi)] && Satisfies(rule, v)
    ensures InRangeOrAbsent(rule, v, lo, hi)
  {
    if !(rule.optional && v.Absent?) {
      assert Holds(rule.checks[0], v) && Holds(rule.checks[1], v) && Holds(rule.checks[2], v);
    }
  }

  lemma LowerBoundRule(rule: Rule, v: Value, lo: int)
    requires rule.checks == [IsInt, Min(lo)] && Satisfies(rule, v)
    ensures (rule.optional && v.Absent?) || (v.Num? && IsInteger(v.x) && lo as real <= v.x)
  {
    if !(rule.optional && v.Absent?) {
      assert Holds(rule.checks[0], v) && Holds(rule.checks[1], v);
    }
  }

  lemma NonEmptyRule(rule: Rule, v: Value)
    requires rule.checks == NonEmptyString && Satisfies(rule, v) && !rule.optional
    ensures v.Str? && v.s != ""
  {
    assert Holds(rule.checks[0], v) && Holds(rule.checks[1], v);
  }

  /** In a valid configuration NODE_ENV is one of the three environments. */
  lemma ValidNodeEnv(config: Config)
    requires Valid(config)
    ensures Get(config, "NODE_ENV") in {Str("development"), Str("test"), Str("production")}
  {
    assert Satisfies(Table[0], Get(config, "NODE_ENV"));
    assert Holds(Table[0].checks[0], Get(config, "NODE_ENV"));
  }

  /** The required ports are integers in [1, 65535], and so is the Redis
      port when it is set. */
  lemma ValidPorts(config: Config)
    requires Valid(config)
    ensures InRangeOrAbsent(Table[2], Get(config, "APP_PORT"), 1, 65535) && !Table[2].optional
    ensures InRangeOrAbsent(Table[28], Get(config, "POSTGRES_PORT"), 1, 65535) && !Table[28].optional
    ensures InRangeOrAbsent(Table[36], Get(config, "SMTP_PORT"), 1, 65535) && !Table[36].optional
    ensures InRangeOrAbsent(Table[23], Get(config, "REDIS_PORT"), 1, 65535)
  {
    RangeRule(Table[2], Get(config, "APP_PORT"), 1, 65535);
    RangeRule(Table[28], Get(config, "POSTGRES_PORT"), 1, 65535);
    RangeRule(Table[36], Get(config, "SMTP_PORT"), 1, 65535);
    RangeRule(Table[23], Get(config, "REDIS_PORT"), 1, 65535);
  }

  /** The bcrypt cost is an integer in [4, 16]; each token lifetime, when
      set, is an integer number of minutes in [1, 1440]. */
  lemma ValidRoundsAndLifetimes(config: Config)
    requires Valid(config)
    ensures var v := Get(config, "BCRYPT_ROUNDS"); v.Num? && IsInteger(v.x) && 4.0 <= v.x <= 16.0
    ensures InRangeOrAbsent(Table[37], Get(config, "EMAIL_VERIFY_TOKEN_TTL_MIN"), 1, 1440) && Table[37].optional
    ensures InRangeOrAbsent(Table[38], Get(config, "PASSWORD_RESET_TOKEN_TTL_MIN"), 1, 1440) && Table[38].optional
  {
    RangeRule(Table[34], Get(config, "BCRYPT_ROUNDS"), 4, 16);
    RangeRule(Table[37], Get(config, "EMAIL_VERIFY_TOKEN_TTL_MIN"), 1, 1440);
    RangeRule(Table[38], Get(config, "PASSWORD_RESET_TOKEN_TTL_MIN"), 1, 1440);
  }

  /** The Redis database index, when set, is a non-negative integer; the log
      file size and file count, when set, are positive integers. */
  lemma ValidCounts(config: Config)
    requires Valid(config)
    ensures var v := Get(config, "REDIS_DB"); v.Absent? || (v.Num? && IsInteger(v.x) && v.x >= 0.0)
    ensures var v := Get(config, "LOG_FILE_MAXSIZE"); v.Absent? || (v.Num? && IsInteger(v.x) && v.x >= 1.0)
    ensures var v := Get(config, "LOG_FILE_MAXFILES"); v.Absent? || (v.Num? && IsInteger(v.x) && v.x >= 1.0)
  {
    LowerBoundRule(Table[25], Get(config, "REDIS_DB"), 0);
    LowerBoundRule(Table[11], Get(config, "LOG_FILE_MAXSIZE"), 1);
    LowerBoundRule(Table[12], Get(config, "LOG_FILE_MAXFILES"), 1);
  }

  /** Names, URLs, database settings and all three secrets are non-empty
      strings. */
  lemma ValidSecretsAndNames(config: Config)
    requires Valid(config)
    ensures forall k :: k in {1, 3, 21, 27, 29, 30, 31, 32, 33, 35} ==>
              var v := Get(config, Table[k].name); v.Str? && v.s != ""
    ensures [Table[32].name, Table[33].name, Table[35].name]
            == ["JWT_ACCESS_SECRET", "JWT_REFRESH_SECRET", "TWO_FACTOR_ENCRYPTION_KEY"]
  {
    forall k | k in {1, 3, 21, 27, 29, 30, 31, 32, 33, 35}
      ensures var v := Get(config, Table[k].name); v.Str? && v.s != ""
    {
      NonEmptyRule(Table[k], Get(config, Table[k].name));
    }
  }
}
