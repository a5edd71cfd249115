/**
 * The settings read from the process environment. The environment is a
 * parameter `env`; a name outside it is unset, and reading an unset name
 * gives "", as `os.Getenv` does.
 */
module Config {
  import opened Wrappers
  import opened Strings

  type Env = map<string, string>

  /** `os.Getenv(name)`. */
  function RawEnv(env: Env, name: string): string
  {
    if name in env then env[name] else ""
  }

  /** getEnv: the value of `key`, or `defaultValue` when it is unset or empty. */
  function GetEnv(env: Env, key: string, defaultValue: string): (v: string)
    ensures RawEnv(env, key) == "" ==> v == defaultValue
    ensures RawEnv(env, key) != "" ==> v == RawEnv(env, key)
  {
    var value := RawEnv(env, key);
    if |value| == 0 then defaultValue else value
  }

  /** `ErrInvalidPort`. */
  const ErrInvalidPort: Error := Error("the port is invalid")

  const Production: string := "production"

  // ---------------------------------------------------------------------------
  // Decimal integers: strconv.Atoi and strconv.ParseInt(s, 10, 64)
  // ---------------------------------------------------------------------------

  predicate IsDigit(c: char)
  {
    '0' <= c <= '9'
  }

  predicate AllDigits(s: string)
  {
    forall i :: 0 <= i < |s| ==> IsDigit(s[i])
  }

  /** The value of a run of decimal digits, most significant first. */
  function DigitsValue(s: string): nat
    requires AllDigits(s)
  {
    if s == [] then 0 else DigitsValue(s[..|s| - 1]) * 10 + (s[|s| - 1] as int - '0' as int)
  }

  /** The text after an optional leading '+' or '-'. */
  function Unsigned(s: string): string
  {
    if |s| > 0 && (s[0] == '-' || s[0] == '+') then s[1..] else s
  }

  /** An optional sign followed by at least one character, every one of them a decimal digit. */
  predicate SignedDigits(s: string)
  {
    Unsigned(s) != [] && AllDigits(Unsigned(s))
  }

  /**
   * Base-10 parsing into a 64-bit integer: an optional sign, then one or
   * more decimal digits, and a value inside the int64 range. Anything else
   * is rejected.
   */
  function ParseInt(s: string): (r: Option<int64>)
    ensures r.Some? ==> SignedDigits(s)
    ensures r.Some? && s[0] == '-' ==> r.value <= 0
    ensures r.Some? && s[0] != '-' ==> r.value >= 0
  {
    var negative := |s| > 0 && s[0] == '-';
    var digits := Unsigned(s);
    if digits == [] || !AllDigits(digits) then None
    else
      var value: int := if negative then -(DigitsValue(digits) as int) else DigitsValue(digits);
      if MinInt64 <= value <= MaxInt64 then Some(value as int64) else None
  }

  /** The decimal digits of `m`, without leading zeros. */
  function FormatNat(m: nat): (s: string)
    ensures s != [] && AllDigits(s)
  {
    if m < 10 then [('0' as int + m) as char]
    else FormatNat(m / 10) + [('0' as int + m % 10) as char]
  }

  /** `strconv.Itoa`: the decimal form of `n`, with a leading '-' when negative. */
  function FormatInt(n: int): (s: string)
    ensures s != []
  {
    if n < 0 then "-" + FormatNat(-n) else FormatNat(n)
  }

  lemma {:induction false} FormatNatValue(m: nat)
    ensures DigitsValue(FormatNat(m)) == m
  {
    if m >= 10 {
      var s := FormatNat(m);
      FormatNatValue(m / 10);
      assert s[..|s| - 1] == FormatNat(m / 10);
    }
  }

  /** Parsing the decimal form of an int64 gives it back. */
  lemma ParseFormat(n: int64)
    ensures ParseInt(FormatInt(n as int)) == Some(n)
  {
    if n < 0 {
      FormatNatValue(-(n as int));
      assert FormatInt(n as int)[1..] == FormatNat(-(n as int));
    } else {
      FormatNatValue(n as int);
    }
  }

  /** Every decimal form of an int64 parses to it. */
  lemma ParsesFormatted(s: string)
    ensures forall p: int64 {:trigger FormatInt(p as int)} :: s == FormatInt(p as int) ==> ParseInt(s) == Some(p)
  {
    forall p: int64 | s == FormatInt(p as int)
      ensures ParseInt(s) == Some(p)
    {
      ParseFormat(p);
    }
  }

  /** A leading zero does not change the value of a run of digits. */
  lemma {:induction false} DigitsValueLeadingZero(d: string)
    requires AllDigits(d)
    ensures AllDigits("0" + d) && DigitsValue("0" + d) == DigitsValue(d)
  {
    assert AllDigits("0" + d) by {
      forall i | 0 <= i < |"0" + d| ensures IsDigit(("0" + d)[i]) {
        if i > 0 { assert ("0" + d)[i] == d[i - 1]; }
      }
    }
    if d != [] {
      assert ("0" + d)[..|"0" + d| - 1] == "0" + d[..|d| - 1];
      DigitsValueLeadingZero(d[..|d| - 1]);
    }
  }

  /** A leading '+' is accepted and changes nothing: "+5" parses as "5". */
  lemma ParsePlusSign(d: string)
    requires d != [] && AllDigits(d)
    ensures ParseInt("+" + d) == ParseInt(d)
  {
    assert ("+" + d)[1..] == d;
  }

  /** Leading zeros change nothing: "007" parses as "7". */
  lemma ParseLeadingZero(d: string)
    requires d != [] && AllDigits(d)
    ensures ParseInt("0" + d) == ParseInt(d)
  {
    DigitsValueLeadingZero(d);
  }

  /** A leading '-' negates an unsigned number that parses: "-0" parses as 0. */
  lemma ParseMinusSign(d: string)
    requires AllDigits(d) && ParseInt(d).Some?
    ensures ParseInt("-" + d).Some? && ParseInt("-" + d).value as int == -(ParseInt(d).value as int)
  {
    assert ("-" + d)[1..] == d;
  }

  /** A character that is not a digit after the optional sign is rejected, as in "1x" or "80 ". */
  lemma ParseRejectsNonDigit(s: string, i: nat)
    requires |Unsigned(s)| > 0 && i < |Unsigned(s)| && !IsDigit(Unsigned(s)[i])
    ensures ParseInt(s) == None
  {
  }

  /** A value outside the int64 range is rejected even when well formed. */
  lemma ParseOutOfRange(n: int)
    requires n < MinInt64 || MaxInt64 < n
    ensures ParseInt(FormatInt(n)) == None
  {
    var s := FormatInt(n);
    if n < 0 {
      var f := FormatNat(-n);
      FormatNatValue(-n);
      assert s[0] == '-' && s[1..] == f;
      assert DigitsValue(s[1..]) == -n;
    } else {
      FormatNatValue(n);
      assert s == FormatNat(n) && IsDigit(s[0]);
    }
  }

  // ---------------------------------------------------------------------------
  // The settings
  // ---------------------------------------------------------------------------

  /** LogLevel: LOG_LEVEL as it is, "" when unset. */
  function LogLevel(env: Env): (v: string)
    ensures "LOG_LEVEL" in env ==> v == env["LOG_LEVEL"]
    ensures "LOG_LEVEL" !in env ==> v == ""
  {
    RawEnv(env, "LOG_LEVEL")
  }

  /** Env: GO_ENV as it is, "" when unset. */
  function GoEnv(env: Env): (v: string)
    ensures "GO_ENV" in env ==> v == env["GO_ENV"]
    ensures "GO_ENV" !in env ==> v == ""
  {
    RawEnv(env, "GO_ENV")
  }

  /** IsProduction: GO_ENV is exactly "production". */
  predicate IsProduction(env: Env)
  {
    GoEnv(env) == Production
  }

  /** ApiPort: PORT as an integer, 4000 when unset or empty; anything unparseable is ErrInvalidPort. */
  function ApiPort(env: Env): (r: Result<int64, Error>)
    ensures RawEnv(env, "PORT") == "" ==> r == Success(4000)
    ensures forall p: int64 {:trigger FormatInt(p as int)} :: RawEnv(env, "PORT") == FormatInt(p as int) ==> r == Success(p)
    ensures r.Failure? <==> RawEnv(env, "PORT") != "" && ParseInt(RawEnv(env, "PORT")).None?
    ensures r.Failure? ==> r.error == ErrInvalidPort
  {
    ParseFormat(4000);
    assert FormatInt(4000) == "4000";
    ParsesFormatted(RawEnv(env, "PORT"));
    match ParseInt(GetEnv(env, "PORT", "4000"))
    case Some(port) => Success(port)
    case None => Failure(ErrInvalidPort)
  }

  /** ConfigFile: CONFIG_FILE as it is, "" when unset. */
  function ConfigFile(env: Env): (v: string)
    ensures "CONFIG_FILE" in env ==> v == env["CONFIG_FILE"]
    ensures "CONFIG_FILE" !in env ==> v == ""
  {
    RawEnv(env, "CONFIG_FILE")
  }

  /** RateLimit: WEB_RATE_LIMIT as an integer; 0 when it is unset, empty or unparseable. */
  function RateLimit(env: Env): (r: int64)
    ensures RawEnv(env, "WEB_RATE_LIMIT") == "" ==> r == 0
    ensures ParseInt(RawEnv(env, "WEB_RATE_LIMIT")).None? ==> r == 0
    ensures forall p: int64 {:trigger FormatInt(p as int)} :: RawEnv(env, "WEB_RATE_LIMIT") == FormatInt(p as int) ==> r == p
  {
    ParseFormat(0);
    assert FormatInt(0) == "0";
    ParsesFormatted(RawEnv(env, "WEB_RATE_LIMIT"));
    match ParseInt(GetEnv(env, "WEB_RATE_LIMIT", "0"))
    case Some(value) => value
    case None => 0
  }

  /** NatsConnectionUrl: NATS_URL as it is, "" when unset. */
  function NatsConnectionUrl(env: Env): (v: string)
    ensures "NATS_URL" in env ==> v == env["NATS_URL"]
    ensures "NATS_URL" !in env ==> v == ""
  {
    RawEnv(env, "NATS_URL")
  }

  /** RedisConnectionUrl: REDIS_URL as it is, "" when unset. */
  function RedisConnectionUrl(env: Env): (v: string)
    ensures "REDIS_URL" in env ==> v == env["REDIS_URL"]
    ensures "REDIS_URL" !in env ==> v == ""
  {
    RawEnv(env, "REDIS_URL")
  }

  /** EventChannel: EVENT_CHANNEL as it is, "" when unset. */
  function EventChannel(env: Env): (v: string)
    ensures "EVENT_CHANNEL" in env ==> v == env["EVENT_CHANNEL"]
    ensures "EVENT_CHANNEL" !in env ==> v == ""
  {
    RawEnv(env, "EVENT_CHANNEL")
  }

  /**
   * ScrubSensitiveKeys: SCRUB_SENSITIVE_KEYS cut at every comma. The keys
   * hold no comma and join back into the variable; an unset variable gives
   * one empty key.
   */
  function ScrubSensitiveKeys(env: Env): (keys: seq<string>)
    ensures Join(keys, ',') == RawEnv(env, "SCRUB_SENSITIVE_KEYS")
    ensures forall i :: 0 <= i < |keys| ==> ',' !in keys[i]
    ensures |keys| == Count(RawEnv(env, "SCRUB_SENSITIVE_KEYS"), ',') + 1
    ensures RawEnv(env, "SCRUB_SENSITIVE_KEYS") == "" ==> keys == [""]
  {
    var raw := GetEnv(env, "SCRUB_SENSITIVE_KEYS", "");
    JoinSplit(raw, ',');
    SplitPiecesFree(raw, ',');
    SplitLength(raw, ',');
    SplitEmpty();
    Split(raw, ',')
  }

  lemma SplitEmpty()
    ensures Split("", ',') == [""]
  {
    SplitNoSeparator("", ',');
  }

  // ---------------------------------------------------------------------------
  // Properties
  // ---------------------------------------------------------------------------

  /** getEnv never returns "" for a non-empty default, and otherwise never invents a value. */
  lemma GetEnvNonEmpty(env: Env, key: string, defaultValue: string)
    ensures defaultValue != "" ==> GetEnv(env, key, defaultValue) != ""
    ensures GetEnv(env, key, defaultValue) in {RawEnv(env, key), defaultValue}
  {
  }

  /** IsProduction holds exactly when GO_ENV is "production", and for no other value. */
  lemma IsProductionExactly(env: Env, value: string)
    ensures IsProduction(env["GO_ENV" := value]) <==> value == "production"
    ensures "GO_ENV" !in env ==> !IsProduction(env)
  {
  }

  /** A comma-separated list of comma-free keys reads back as those keys. */
  lemma ScrubSensitiveKeysOfList(env: Env, keys: seq<string>)
    requires |keys| >= 1 && forall i :: 0 <= i < |keys| ==> ',' !in keys[i]
    requires RawEnv(env, "SCRUB_SENSITIVE_KEYS") == Join(keys, ',')
    ensures ScrubSensitiveKeys(env) == keys
  {
    SplitJoin(keys, ',');
  }

  // ---------------------------------------------------------------------------
  // The scenarios of pkg/config/config_test.go
  // ---------------------------------------------------------------------------

  /** The plain getters return what the test sets. */
  lemma GettersReturnWhatIsSet(env: Env)
    ensures LogLevel(env["LOG_LEVEL" := "debug"]) == "debug"
    ensures GoEnv(env["GO_ENV" := "development"]) == "development"
    ensures IsProduction(env["GO_ENV" := "production"]) && !IsProduction(env["GO_ENV" := "test"])
    ensures ConfigFile(env["CONFIG_FILE" := "/tmp/config.yml"]) == "/tmp/config.yml"
    ensures NatsConnectionUrl(env["NATS_URL" := "nats://localhost"]) == "nats://localhost"
    ensures RedisConnectionUrl(env["REDIS_URL" := "redis://localhost"]) == "redis://localhost"
    ensures EventChannel(env["EVENT_CHANNEL" := "nats_or_redis"]) == "nats_or_redis"
  {
  }

  /** TestApiPort: PORT=1000 gives port 1000. */
  lemma ApiPortSet(env: Env)
    ensures ApiPort(env["PORT" := "1000"]) == Success(1000)
  {
    assert FormatInt(1000) == "1000";
  }

  /** TestRateLimit: WEB_RATE_LIMIT=1 gives 1. */
  lemma RateLimitSet(env: Env)
    ensures RateLimit(env["WEB_RATE_LIMIT" := "1"]) == 1
  {
    assert FormatInt(1) == "1";
  }

  /** TestScrubSensitiveKeys: "foo,bar" gives the keys "foo" and "bar". */
  lemma ScrubSensitiveKeysSet(env: Env)
    requires RawEnv(env, "SCRUB_SENSITIVE_KEYS") == "foo,bar"
    ensures ScrubSensitiveKeys(env) == ["foo", "bar"]
  {
    var keys := ["foo", "bar"];
    assert Join(keys, ',') == "foo,bar";
    ScrubSensitiveKeysOfList(env, keys);
  }
}
