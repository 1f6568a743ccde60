/**
 * Settings read from the environment and the check of the required ones, from
 * src/config.py.
 */
module Config {
  import opened Records
  import opened Strings

  const DEFAULT_OPENAI_MODEL := "gpt-4o-mini"
  const DEFAULT_SMTP_SERVER := "smtp.gmail.com"
  const DEFAULT_SMTP_PORT := 465
  /** `MAX_NOTICIAS_POR_TICKER` when the variable is unset. */
  const DEFAULT_MAX_NEWS_PER_TICKER := 20
  /** `TOP_N_RELEVANTES` when the variable is unset. */
  const DEFAULT_TOP_N_RELEVANT := 5
  const DEFAULT_LOOKBACK_HOURS := 24
  /** The texts `float()` reads for `OPENAI_TEMPERATURE` and `RELEVANCIA_MIN` when unset. */
  const DEFAULT_TEMPERATURE_TEXT := "0.2"
  const DEFAULT_RELEVANCE_MIN_TEXT := "0.0"

  /** The process environment after `.env` is loaded. */
  type Environment = map<string, string>

  /** The module-level settings the pipeline reads. */
  datatype Settings = Settings(
    openaiApiKey: Option<string>,
    openaiModel: string,
    eventRegistryApiKey: Option<string>,
    senderEmail: Option<string>,
    senderPassword: Option<string>,
    smtpServer: string,
    smtpPort: int,
    sheetId: Option<string>,
    maxNewsPerTicker: int,
    topNRelevant: int,
    lookbackHours: int)

  /** `os.getenv(key)`. */
  function GetEnv(env: Environment, key: string): Option<string> {
    if key in env then Some(env[key]) else None
  }

  /** `os.getenv(key, default)`. */
  function GetEnvOr(env: Environment, key: string, default: string): string {
    GetEnv(env, key).GetOr(default)
  }

  // ---------------------------------------------------------------------------
  // int() on a text
  // ---------------------------------------------------------------------------

  predicate IsDigit(c: char) {
    '0' <= c <= '9'
  }

  predicate AllDigits(s: string) {
    forall i :: 0 <= i < |s| ==> IsDigit(s[i])
  }

  /** The value of a run of decimal digits. */
  function DigitsValue(s: string): nat
    requires AllDigits(s)
  {
    if s == [] then 0 else DigitsValue(s[..|s| - 1]) * 10 + (s[|s| - 1] as int - '0' as int)
  }

  /**
   * `int(s)` for base 10: surrounding whitespace is ignored, then an optional
   * sign and at least one digit; anything else raises (`None`).
   */
  function ParseInt(s: string): (r: Option<int>)
    ensures r.Some? ==> Strip(s) != ""
  {
    var t := Strip(s);
    if t == [] then None
    else if t[0] == '-' || t[0] == '+' then
      var ds := t[1..];
      if ds != [] && AllDigits(ds) then
        var v: int := DigitsValue(ds);
        Some(if t[0] == '-' then -v else v)
      else None
    else if AllDigits(t) then Some(DigitsValue(t))
    else None
  }

  /** The decimal digits of `n`, most significant first. */
  function Digits(n: nat): (r: string)
    ensures r != [] && AllDigits(r) && DigitsValue(r) == n
    ensures IsDigit(r[0])
  {
    if n < 10 then ['0' + n as char]
    else
      var init := Digits(n / 10);
      var r := init + ['0' + (n % 10) as char];
      assert r[..|r| - 1] == init;
      r
  }

  /** `str(n)`. */
  function DecimalText(n: int): string {
    if n < 0 then "-" + Digits(-n) else Digits(n)
  }

  /** `int(str(n)) == n`. */
  lemma ParseDecimalText(n: int)
    ensures ParseInt(DecimalText(n)) == Some(n)
  {
    var d := Digits(if n < 0 then -n else n);
    var t := DecimalText(n);
    assert !IsSpace(d[0]) && !IsSpace(d[|d| - 1]);
    if n < 0 {
      assert t == "-" + d && t[1..] == d;
    }
    StripStripped(t);
  }

  /**
   * `int(os.getenv(key, default))`: the default text when the variable is
   * unset, `None` when the text is not an integer (a `ValueError` at import).
   */
  function IntSetting(env: Environment, key: string, default: int): Option<int> {
    ParseInt(GetEnvOr(env, key, DecimalText(default)))
  }

  /** An unset variable gives the default. */
  lemma IntSettingDefault(env: Environment, key: string, default: int)
    requires key !in env
    ensures IntSetting(env, key, default) == Some(default)
  {
    ParseDecimalText(default);
  }

  /** The integer settings: SMTP port, news per ticker, top N and lookback hours. */
  datatype Numbers = Numbers(smtpPort: int, maxNewsPerTicker: int, topNRelevant: int, lookbackHours: int)

  function LoadNumbers(env: Environment): Option<Numbers> {
    var port := IntSetting(env, "SMTP_PORT", DEFAULT_SMTP_PORT);
    var maxNews := IntSetting(env, "MAX_NOTICIAS_POR_TICKER", DEFAULT_MAX_NEWS_PER_TICKER);
    var topN := IntSetting(env, "TOP_N_RELEVANTES", DEFAULT_TOP_N_RELEVANT);
    var hours := IntSetting(env, "HORAS_RETROATIVAS", DEFAULT_LOOKBACK_HOURS);
    if port.None? || maxNews.None? || topN.None? || hours.None? then None
    else Some(Numbers(port.value, maxNews.value, topN.value, hours.value))
  }

  /**
   * The two float settings read at import, `float(os.getenv(key, default))`:
   * they are not used by the pipeline, but a malformed one raises.
   * `parseFloat` is Python's `float()` on a text, `None` where it raises.
   */
  predicate FloatsRead(env: Environment, parseFloat: string -> Option<real>) {
    && parseFloat(GetEnvOr(env, "OPENAI_TEMPERATURE", DEFAULT_TEMPERATURE_TEXT)).Some?
    && parseFloat(GetEnvOr(env, "RELEVANCIA_MIN", DEFAULT_RELEVANCE_MIN_TEXT)).Some?
  }

  /** The module's settings; loading raises when an integer or float setting is malformed. */
  function Load(env: Environment, parseFloat: string -> Option<real>): (r: Result<Settings>)
    ensures r.Ok? <==> LoadNumbers(env).Some? && FloatsRead(env, parseFloat)
    ensures r.Ok? ==> (r.value.maxNewsPerTicker == LoadNumbers(env).value.maxNewsPerTicker
                       && r.value.topNRelevant == LoadNumbers(env).value.topNRelevant)
  {
    if !FloatsRead(env, parseFloat) then Raised
    else
    match LoadNumbers(env)
    case None => Raised
    case Some(n) => Ok(Settings(
      GetEnv(env, "OPENAI_API_KEY"),
      GetEnvOr(env, "OPENAI_MODEL", DEFAULT_OPENAI_MODEL),
      GetEnv(env, "EVENT_REGISTRY_API_KEY"),
      GetEnv(env, "REMETENTE_EMAIL"),
      GetEnv(env, "REMETENTE_SENHA"),
      GetEnvOr(env, "SMTP_SERVER", DEFAULT_SMTP_SERVER),
      n.smtpPort,
      GetEnv(env, "SHEET_ID"),
      n.maxNewsPerTicker,
      n.topNRelevant,
      n.lookbackHours))
  }

  /** A malformed `RELEVANCIA_MIN` or `OPENAI_TEMPERATURE` fails the import, whatever the integers are. */
  lemma BadFloatFailsLoad(env: Environment, parseFloat: string -> Option<real>, key: string)
    requires key == "RELEVANCIA_MIN" || key == "OPENAI_TEMPERATURE"
    requires key in env && parseFloat(env[key]).None?
    ensures Load(env, parseFloat).Raised?
  {
  }

  /** With none of the integer variables set, the defaults 465, 20, 5 and 24 apply. */
  lemma LoadDefaults(env: Environment)
    requires "SMTP_PORT" !in env && "MAX_NOTICIAS_POR_TICKER" !in env
    requires "TOP_N_RELEVANTES" !in env && "HORAS_RETROATIVAS" !in env
    ensures LoadNumbers(env) == Some(Numbers(465, 20, 5, 24))
  {
    IntSettingDefault(env, "SMTP_PORT", DEFAULT_SMTP_PORT);
    IntSettingDefault(env, "MAX_NOTICIAS_POR_TICKER", DEFAULT_MAX_NEWS_PER_TICKER);
    IntSettingDefault(env, "TOP_N_RELEVANTES", DEFAULT_TOP_N_RELEVANT);
    IntSettingDefault(env, "HORAS_RETROATIVAS", DEFAULT_LOOKBACK_HOURS);
  }

  // ---------------------------------------------------------------------------
  // validar_configuracoes
  // ---------------------------------------------------------------------------

  /** The names of the required settings, in the order they are checked. */
  const REQUIRED_NAMES: seq<string> :=
    ["OPENAI_API_KEY", "EVENT_REGISTRY_API_KEY", "REMETENTE_EMAIL", "REMETENTE_SENHA", "SHEET_ID"]

  const MISSING_PREFIX := "Configurações obrigatórias ausentes: "
  const MISSING_HINT := "\nVerifique seu arquivo .env"

  /** The values of the required settings, in the order of `REQUIRED_NAMES`. */
  function RequiredValues(s: Settings): (r: seq<Option<string>>)
    ensures |r| == |REQUIRED_NAMES|
  {
    [s.openaiApiKey, s.eventRegistryApiKey, s.senderEmail, s.senderPassword, s.sheetId]
  }

  /** `not value` for a setting that may be unset. */
  predicate Falsy(v: Option<string>) {
    v.None? || v.value == ""
  }

  /** `[name for name, value in zip(names, values) if not value]`. */
  function MissingFrom(names: seq<string>, values: seq<Option<string>>): (r: seq<string>)
    requires |names| == |values|
    ensures |r| <= |names|
  {
    if names == [] then []
    else (if Falsy(values[0]) then [names[0]] else []) + MissingFrom(names[1..], values[1..])
  }

  /** The names of the required settings that are unset or empty. */
  function Missing(s: Settings): seq<string> {
    MissingFrom(REQUIRED_NAMES, RequiredValues(s))
  }

  datatype Validation = Valid | Invalid(message: string)

  /** `validar_configuracoes()`: raises `ValueError(message)` when a required setting is missing. */
  function Validate(s: Settings): Validation {
    var missing := Missing(s);
    if missing == [] then Valid
    else Invalid(MISSING_PREFIX + Join(missing, ", ") + MISSING_HINT)
  }

  /** A name is reported exactly when its value is falsy (names assumed distinct). */
  lemma {:induction false} MissingFromMembers(names: seq<string>, values: seq<Option<string>>, k: nat)
    requires |names| == |values| && k < |names|
    requires forall i, j :: 0 <= i < j < |names| ==> names[i] != names[j]
    ensures names[k] in MissingFrom(names, values) <==> Falsy(values[k])
  {
    if k > 0 {
      MissingFromMembers(names[1..], values[1..], k - 1);
    } else if |names| > 1 {
      MissingFromOnlyNames(names[1..], values[1..], names[0]);
    }
  }

  /** Only the given names are reported. */
  lemma {:induction false} MissingFromOnlyNames(names: seq<string>, values: seq<Option<string>>, n: string)
    requires |names| == |values|
    requires n !in names
    ensures n !in MissingFrom(names, values)
  {
    if names != [] {
      MissingFromOnlyNames(names[1..], values[1..], n);
    }
  }

  /** The report keeps the order of the names. */
  lemma {:induction false} MissingFromInOrder(names: seq<string>, values: seq<Option<string>>)
    requires |names| == |values|
    ensures IsSubsequence(MissingFrom(names, values), names)
  {
    if names != [] {
      MissingFromInOrder(names[1..], values[1..]);
      var rest := MissingFrom(names[1..], values[1..]);
      assert [names[0]] + names[1..] == names;
      if Falsy(values[0]) {
        assert ([names[0]] + rest)[1..] == rest;
      } else {
        assert MissingFrom(names, values) == rest;
        SubsequenceSkip(rest, names[1..], names[0]);
      }
    }
  }

  /** Putting an item in front of `b` keeps `a` a subsequence of it. */
  lemma {:induction false} SubsequenceSkip(a: seq<string>, b: seq<string>, x: string)
    requires IsSubsequence(a, b)
    ensures IsSubsequence(a, [x] + b)
    decreases |a| + |b|, 1
  {
    assert ([x] + b)[1..] == b;
    if a != [] && a[0] == x {
      SubsequenceTail(a, b);
    }
  }

  /** Dropping the head of a subsequence keeps it a subsequence. */
  lemma {:induction false} SubsequenceTail(a: seq<string>, b: seq<string>)
    requires a != [] && IsSubsequence(a, b)
    ensures IsSubsequence(a[1..], b)
    decreases |a| + |b|, 0
  {
    assert b != [];
    if a[0] == b[0] {
      SubsequenceSkip(a[1..], b[1..], b[0]);
    } else {
      SubsequenceTail(a, b[1..]);
      SubsequenceSkip(a[1..], b[1..], b[0]);
    }
    assert [b[0]] + b[1..] == b;
  }

  lemma RequiredNamesDistinct()
    ensures forall i, j :: 0 <= i < j < |REQUIRED_NAMES| ==> REQUIRED_NAMES[i] != REQUIRED_NAMES[j]
  {
    assert REQUIRED_NAMES[3][10] == 'S' && REQUIRED_NAMES[2][10] == 'E';
  }

  /**
   * Every required setting is reported exactly when it is unset or empty, and
   * the report lists the missing names in declaration order.
   */
  lemma MissingSpec(s: Settings)
    ensures forall k :: 0 <= k < |REQUIRED_NAMES| ==>
              (REQUIRED_NAMES[k] in Missing(s) <==> Falsy(RequiredValues(s)[k]))
    ensures forall n :: n in Missing(s) ==> n in REQUIRED_NAMES
    ensures IsSubsequence(Missing(s), REQUIRED_NAMES)
  {
    RequiredNamesDistinct();
    forall k | 0 <= k < |REQUIRED_NAMES|
      ensures REQUIRED_NAMES[k] in Missing(s) <==> Falsy(RequiredValues(s)[k])
    {
      MissingFromMembers(REQUIRED_NAMES, RequiredValues(s), k);
    }
    forall n | n !in REQUIRED_NAMES ensures n !in Missing(s) {
      MissingFromOnlyNames(REQUIRED_NAMES, RequiredValues(s), n);
    }
    MissingFromInOrder(REQUIRED_NAMES, RequiredValues(s));
  }

  /** Validation fails exactly when some required setting is unset or empty. */
  lemma ValidateIff(s: Settings)
    ensures Validate(s).Invalid? <==> exists k :: 0 <= k < |REQUIRED_NAMES| && Falsy(RequiredValues(s)[k])
  {
    MissingSpec(s);
    if Missing(s) != [] {
      var n := Missing(s)[0];
      assert n in Missing(s);
      var k :| 0 <= k < |REQUIRED_NAMES| && REQUIRED_NAMES[k] == n;
    }
  }

  /** The error message names every missing setting. */
  lemma MessageNamesMissing(s: Settings, k: nat)
    requires k < |Missing(s)|
    ensures Validate(s).Invalid? && IsInfix(Missing(s)[k], Validate(s).message)
  {
    JoinContainsParts(Missing(s), ", ", k);
    InfixOfConcat(Missing(s)[k], MISSING_PREFIX, Join(Missing(s), ", "), MISSING_HINT);
  }

  /** The SMTP server, port and model name are not required. */
  lemma OptionalSettingsNotChecked(s: Settings, model: string, server: string, port: int)
    ensures Validate(s.(openaiModel := model, smtpServer := server, smtpPort := port)) == Validate(s)
  {
  }
}
