/**
 * The configuration resolver: the run's settings derived from three
 * environment variables.  The process environment is a map; a variable that
 * is not in it reads as the empty string, as `os.Getenv` reports it.
 */
module Config {
  import opened Errors
  import opened Strconv

  /** The probe's settings for one run. */
  datatype CheckConfig = CheckConfig(awsRegion: string, expectedLambdaCount: int, debug: bool)

  const DefaultAWSRegion := "us-west-2"

  const DebugContext := "failed to parse DEBUG environment variable"
  const LambdaCountContext := "error occurred attempting to parse LAMBDA_COUNT"

  /** `os.Getenv`: unset and empty are the same. */
  function Getenv(env: map<string, string>, key: string): (v: string)
    ensures key in env ==> v == env[key]
    ensures key !in env ==> v == ""
  {
    if key in env then env[key] else ""
  }

  /** `parseDebugSetting`: DEBUG is off when empty, else it must be one of ParseBool's literals. */
  function ParseDebugSetting(env: map<string, string>): (r: Result<bool>)
    ensures var v := Getenv(env, "DEBUG");
      (r == Ok(true) <==> v in TrueLiterals)
      && (r == Ok(false) <==> v == "" || v in FalseLiterals)
      && (r.Err? ==> r.error == Wrapped(DebugContext, NumError("ParseBool", v, ErrSyntax)))
  {
    var debugEnv := Getenv(env, "DEBUG");
    if |debugEnv| != 0 then
      match ParseBool(debugEnv)
      case Err(e) => Err(Wrapped(DebugContext, e))
      case Ok(parsed) => Ok(parsed)
    else Ok(false)
  }

  /**
   * `parseConfig`: DEBUG first (its error wins), then the region, which cannot
   * fail, then LAMBDA_COUNT through `Atoi`.
   */
  function ParseConfig(env: map<string, string>): (r: Result<CheckConfig>)
    ensures ParseDebugSetting(env).Err? ==> r == Err(ParseDebugSetting(env).error)
    ensures r.Ok? ==> r.value.debug == ParseDebugSetting(env).value
    ensures r.Ok? ==> r.value.awsRegion != ""
    ensures r.Ok? && Getenv(env, "AWS_REGION") != "" ==> r.value.awsRegion == Getenv(env, "AWS_REGION")
    ensures r.Ok? && Getenv(env, "AWS_REGION") == "" ==> r.value.awsRegion == DefaultAWSRegion
    ensures r.Ok? && Getenv(env, "LAMBDA_COUNT") == "" ==> r.value.expectedLambdaCount == 0
    ensures r.Ok? && Getenv(env, "LAMBDA_COUNT") != "" ==> Atoi(Getenv(env, "LAMBDA_COUNT")) == Ok(r.value.expectedLambdaCount)
    ensures ParseDebugSetting(env).Ok? && Atoi(Getenv(env, "LAMBDA_COUNT")).Err? && Getenv(env, "LAMBDA_COUNT") != ""
      ==> r == Err(Wrapped(LambdaCountContext, Atoi(Getenv(env, "LAMBDA_COUNT")).error))
  {
    match ParseDebugSetting(env)
    case Err(e) => Err(e)
    case Ok(debug) =>
      var awsRegionEnv := Getenv(env, "AWS_REGION");
      var awsRegion := if |awsRegionEnv| != 0 then awsRegionEnv else DefaultAWSRegion;
      var lambdaCountEnv := Getenv(env, "LAMBDA_COUNT");
      if |lambdaCountEnv| != 0 then
        match Atoi(lambdaCountEnv)
        case Err(parseErr) => Err(Wrapped(LambdaCountContext, parseErr))
        case Ok(count) => Ok(CheckConfig(awsRegion, count, debug))
      else Ok(CheckConfig(awsRegion, 0, debug))
  }

  /** The environment values a run accepts: DEBUG empty or a boolean literal, LAMBDA_COUNT empty or a 64-bit decimal literal. */
  predicate AcceptableEnv(env: map<string, string>) {
    var debugEnv := Getenv(env, "DEBUG");
    var countEnv := Getenv(env, "LAMBDA_COUNT");
    (debugEnv == "" || debugEnv in TrueLiterals || debugEnv in FalseLiterals)
    && (countEnv == "" || (IsIntLiteral(countEnv) && InInt64(LiteralValue(countEnv))))
  }

  /**
   * The resolver fails exactly on unacceptable DEBUG or LAMBDA_COUNT values
   * (AWS_REGION never matters), and on success the expected count is the
   * decimal value of LAMBDA_COUNT.
   */
  lemma ParseConfigAccepts(env: map<string, string>)
    ensures ParseConfig(env).Ok? <==> AcceptableEnv(env)
    ensures ParseConfig(env).Ok? && Getenv(env, "LAMBDA_COUNT") != "" ==>
      ParseConfig(env).value.expectedLambdaCount == LiteralValue(Getenv(env, "LAMBDA_COUNT"))
  {
    AtoiAccepts(Getenv(env, "LAMBDA_COUNT"));
  }

  /** The error for a bad DEBUG and for a bad LAMBDA_COUNT, as reported: DEBUG is checked first. */
  lemma ParseConfigErrors(env: map<string, string>)
    ensures var debugEnv := Getenv(env, "DEBUG");
      debugEnv != "" && debugEnv !in TrueLiterals && debugEnv !in FalseLiterals ==>
        ParseConfig(env) == Err(Wrapped(DebugContext, NumError("ParseBool", debugEnv, ErrSyntax)))
    ensures var countEnv := Getenv(env, "LAMBDA_COUNT");
      ParseDebugSetting(env).Ok? && countEnv != "" && !(IsIntLiteral(countEnv) && InInt64(LiteralValue(countEnv))) ==>
        ParseConfig(env).Err? && ParseConfig(env).error.Wrapped? && ParseConfig(env).error.context == LambdaCountContext
        && ParseConfig(env).error.cause.NumError? && ParseConfig(env).error.cause.fn == "Atoi"
        && ParseConfig(env).error.cause.num == countEnv
  {
    AtoiAccepts(Getenv(env, "LAMBDA_COUNT"));
  }

  /** Setting LAMBDA_COUNT to the `%d` text of any 64-bit integer resolves to that integer. */
  lemma ParseConfigCountRoundTrip(env: map<string, string>, n: int)
    requires InInt64(n) && ParseDebugSetting(env).Ok?
    ensures ParseConfig(env["LAMBDA_COUNT" := FormatInt(n)]).Ok?
    ensures ParseConfig(env["LAMBDA_COUNT" := FormatInt(n)]).value.expectedLambdaCount == n
  {
    var env' := env["LAMBDA_COUNT" := FormatInt(n)];
    assert Getenv(env', "DEBUG") == Getenv(env, "DEBUG");
    AtoiFormatInt(n);
  }
}
