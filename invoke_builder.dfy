/**
 * InvokeStepFunctionBuilder, the build step: it keeps the templates the user
 * configured, expands them against the build's variables into an
 * InvokeStepFunctionConfig, and runs InvokeStepFunctionService with that
 * configuration. None as the answer stands for an exception that ends the build
 * step: a poll interval that does not parse, or one raised during the invocation.
 */
module InvokeBuilder {
  import opened Wrappers
  import opened JavaLang
  import opened Macro
  import opened StepFunctions
  import opened Configs
  import opened Results
  import opened InvokeService

  /** Strings.nullToEmpty */
  function NullToEmpty(s: Option<string>): string
  {
    if s.Some? then s.value else ""
  }

  /** Strings.isNullOrEmpty */
  predicate IsNullOrEmpty(s: Option<string>)
  {
    s.None? || s.value == ""
  }

  /**
   * The poll interval buildConfig settles on for the raw template: the default when
   * the template is null or empty, otherwise the expanded template read as a number
   * of seconds by Long.valueOf; None where Long.valueOf throws.
   */
  function PollIntervalFor(template: Option<string>, vars: map<string, string>): (r: Option<Duration>)
    ensures IsNullOrEmpty(template) ==> r == Some(DEFAULT_POLL_INTERVAL)
    ensures !IsNullOrEmpty(template) ==>
      r == (var n := ParseLong(ReplaceMacro(template.value, vars)); if n.Some? then Some(OfSeconds(n.value)) else None)
  {
    if IsNullOrEmpty(template) then Some(DEFAULT_POLL_INTERVAL)
    else
      match ParseLong(ReplaceMacro(template.value, vars))
      case None => None
      case Some(n) => Some(OfSeconds(n))
  }

  /** A template that spells a long in decimal, with no placeholder in it, sets the interval to that many seconds */
  lemma PollIntervalOfDecimal(n: Long, vars: map<string, string>)
    ensures PollIntervalFor(Some(FormatLong(n)), vars) == Some(OfSeconds(n))
  {
    var s := FormatLong(n);
    assert '$' !in s by {
      if n < 0 {
        assert s == "-" + NatDigits(0 - n as int);
      }
    }
    ReplaceMacroNoPlaceholder(s, vars);
    ParseFormatRoundTrip(n);
  }

  /**
   * The emptiness test is made on the raw template: a template whose expansion is
   * empty, or not a decimal long, makes the configuration fail.
   */
  lemma PollIntervalFailsOnEmptyExpansion(name: string, vars: map<string, string>)
    requires IsName(name, false) && name in vars && vars[name] == ""
    ensures PollIntervalFor(Some("$" + name), vars) == None
  {
    BarePlaceholder(name, "", vars);
    assert "$" + name + "" == "$" + name;
  }

  /** Whether the sleeper goes ahead with a sleep of d between polls */
  predicate SleepsFor(sleeper: Sleeper, d: Duration)
  {
    d.ToMillis().Some? && sleeper.Accepts(d.ToMillis().value)
  }

  class InvokeStepFunctionBuilder {
    /** The step's own ThreadSleeper */
    const sleeper: Sleeper
    const useInstanceCredentials: bool
    const awsSecretKey: string
    const awsAccessKeyId: string
    const awsRegion: string
    const stateMachineArn: Option<string>
    const pollIntervalSeconds: Option<string>
    const payload: Option<string>

    /**
     * Null credentials and region become empty strings; the other templates are kept
     * as given. The step sleeps through a ThreadSleeper, which rejects negative durations.
     */
    constructor (useInstanceCredentials: bool, awsAccessKeyId: Option<string>, awsSecretKey: Option<string>,
                 awsRegion: Option<string>, stateMachineArn: Option<string>, pollIntervalSeconds: Option<string>,
                 payload: Option<string>)
      ensures this.useInstanceCredentials == useInstanceCredentials
      ensures this.awsAccessKeyId == NullToEmpty(awsAccessKeyId)
      ensures this.awsSecretKey == NullToEmpty(awsSecretKey)
      ensures this.awsRegion == NullToEmpty(awsRegion)
      ensures this.stateMachineArn == stateMachineArn
      ensures this.pollIntervalSeconds == pollIntervalSeconds
      ensures this.payload == payload
      ensures fresh(sleeper) && sleeper.rejectsNegative && sleeper.slept == []
    {
      this.sleeper := new Sleeper(true);
      this.useInstanceCredentials := useInstanceCredentials;
      this.awsAccessKeyId := NullToEmpty(awsAccessKeyId);
      this.awsSecretKey := NullToEmpty(awsSecretKey);
      this.awsRegion := NullToEmpty(awsRegion);
      this.stateMachineArn := stateMachineArn;
      this.pollIntervalSeconds := pollIntervalSeconds;
      this.payload := payload;
    }

    /**
     * buildConfig: every template expanded against vars, and the poll interval set
     * only when its raw template is neither null nor empty.
     */
    method BuildConfig(vars: map<string, string>) returns (r: Option<InvokeStepFunctionConfig>)
      ensures r.Some? <==> PollIntervalFor(pollIntervalSeconds, vars).Some?
      ensures r.Some? ==> r.value == InvokeStepFunctionConfig(
        Some(ReplaceMacro(awsAccessKeyId, vars)),
        Some(ReplaceMacro(awsSecretKey, vars)),
        Some(ReplaceMacro(awsRegion, vars)),
        ReplaceMacroNullable(stateMachineArn, vars),
        PollIntervalFor(pollIntervalSeconds, vars).value,
        ReplaceMacroNullable(payload, vars))
    {
      var builder := new Configs.Builder();
      builder := builder.SetAwsAccessKeyId(Some(ReplaceMacro(awsAccessKeyId, vars)));
      builder := builder.SetAwsSecretKey(Some(ReplaceMacro(awsSecretKey, vars)));
      builder := builder.SetAwsRegion(Some(ReplaceMacro(awsRegion, vars)));
      builder := builder.SetStateMachineArn(ReplaceMacroNullable(stateMachineArn, vars));
      builder := builder.SetPayload(ReplaceMacroNullable(payload, vars));
      if !IsNullOrEmpty(pollIntervalSeconds) {
        var seconds := ParseLong(ReplaceMacro(pollIntervalSeconds.value, vars));
        if seconds.None? {
          return None;
        }
        var _ := builder.SetPollInterval(OfSeconds(seconds.value));
      }
      r := Some(builder.Build());
    }

    /**
     * createStepFunctionClient: the configured region, and either the default
     * provider chain (instance credentials) or the configured key and secret.
     */
    function ClientSettingsFor(config: InvokeStepFunctionConfig): (s: ClientSettings)
      ensures s.region == config.awsRegion
      ensures s.credentials.DefaultProviderChain? <==> useInstanceCredentials
      ensures s.credentials.StaticCredentials? ==>
                s.credentials.accessKeyId == config.awsAccessKeyId && s.credentials.secretKey == config.awsSecretKey
    {
      if useInstanceCredentials then ClientSettings(config.awsRegion, DefaultProviderChain)
      else ClientSettings(config.awsRegion, StaticCredentials(config.awsAccessKeyId, config.awsSecretKey))
    }

    /**
     * perform: builds the configuration, invokes the state machine through client
     * (the client built with ClientSettingsFor of that configuration) with the
     * step's sleeper, and passes exactly when the invocation's result is a success.
     */
    method Perform(vars: map<string, string>, client: Client, log: Log) returns (r: Option<bool>)
      modifies client`starts, client`script, client`describes, log`lines, sleeper`slept
      ensures PollIntervalFor(pollIntervalSeconds, vars).None? ==>
        && r.None?
        && client.starts == old(client.starts) && client.describes == old(client.describes)
        && log.lines == old(log.lines) && sleeper.slept == old(sleeper.slept)
      ensures PollIntervalFor(pollIntervalSeconds, vars).Some? ==>
        client.starts == old(client.starts)
                         + [StartRequest(ReplaceMacroNullable(stateMachineArn, vars), ReplaceMacroNullable(payload, vars))]
      ensures r.Some? <==>
        && PollIntervalFor(pollIntervalSeconds, vars).Some?
        && client.startResponse.Some?
        && Completes(old(client.script), SleepsFor(sleeper, PollIntervalFor(pollIntervalSeconds, vars).value))
      ensures r.Some? ==> r.value == (Terminal(old(client.script)).status == SUCCEEDED)
    {
      var config := BuildConfig(vars);
      if config.None? {
        return None;
      }
      var service := new InvokeStepFunctionService(client, config.value, log, sleeper);
      var result := service.Invoke();
      if result.None? {
        return None;
      }
      r := Some(result.value.success);
    }
  }
}

/** The build step run on the inputs of its own test cases */
module InvokeBuilderScenarios {
  import opened Wrappers
  import opened JavaLang
  import opened Macro
  import opened StepFunctions
  import opened Configs
  import opened InvokeBuilder

  const STEP_FUNCTION_ARN: string := "arn:aws:states:us-east-1:123456789012:stateMachine:my_step_function"
  const PAYLOAD: string := "{\"message\":\"hello!\"}"

  /** Templates without placeholders and no variables: the configuration built directly from the same strings */
  method BuildConfigNoVariables() returns (r: Option<InvokeStepFunctionConfig>)
    ensures r == Some(InvokeStepFunctionConfig(Some(""), Some(""), Some(""), Some(STEP_FUNCTION_ARN),
                                               OfSeconds(10), Some(PAYLOAD)))
  {
    var builder := new InvokeStepFunctionBuilder(true, None, None, None, Some(STEP_FUNCTION_ARN), Some("10"), Some(PAYLOAD));
    ParseTen();
    r := builder.BuildConfig(map[]);
  }

  /** The variables of the variable-interpolation test case */
  function TestVariables(): map<string, string>
  {
    map["ARN" := STEP_FUNCTION_ARN, "ACCESS_KEY" := "access-key", "SECRET" := "shhh",
        "REGION" := "us-west-1", "POLL_INTERVAL" := "10", "MESSAGE" := "hello"]
  }

  /**
   * Every template a placeholder, or holding one, and every placeholder a bound
   * variable: the credentials, region and ARN are `${NAME}` on their own, the poll
   * interval is `$NAME` bound to a decimal long, the payload has one `${NAME}`
   * inside literal text.
   */
  method BuildConfigFromPlaceholders(vars: map<string, string>, keyName: string, secretName: string,
                                     regionName: string, arnName: string, pollName: string, seconds: Long,
                                     prefix: string, messageName: string, suffix: string)
    returns (r: Option<InvokeStepFunctionConfig>)
    requires IsName(keyName, true) && keyName in vars
    requires IsName(secretName, true) && secretName in vars
    requires IsName(regionName, true) && regionName in vars
    requires IsName(arnName, true) && arnName in vars
    requires IsName(pollName, false) && pollName in vars && vars[pollName] == FormatLong(seconds)
    requires IsName(messageName, true) && messageName in vars && '$' !in prefix && '$' !in suffix
    ensures r == Some(InvokeStepFunctionConfig(Some(vars[keyName]), Some(vars[secretName]), Some(vars[regionName]),
                                               Some(vars[arnName]), OfSeconds(seconds),
                                               Some(prefix + vars[messageName] + suffix)))
  {
    var builder := new InvokeStepFunctionBuilder(false, Some("${" + keyName + "}"), Some("${" + secretName + "}"),
                                                 Some("${" + regionName + "}"), Some("${" + arnName + "}"),
                                                 Some("$" + pollName),
                                                 Some(prefix + ("${" + messageName + "}" + suffix)));
    BracedAlone(keyName, vars);
    BracedAlone(secretName, vars);
    BracedAlone(regionName, vars);
    BracedAlone(arnName, vars);
    BarePlaceholder(pollName, "", vars);
    assert "$" + pollName + "" == "$" + pollName;
    assert ReplaceMacro("", vars) == "";
    assert vars[pollName] + "" == vars[pollName];
    ParseFormatRoundTrip(seconds);
    assert PollIntervalFor(Some("$" + pollName), vars) == Some(OfSeconds(seconds));
    OneBracedPlaceholder(prefix, messageName, suffix, vars);
    r := builder.BuildConfig(vars);
  }

  /** The variable-interpolation test case, as an instance of the above */
  method BuildConfigVariables() returns (r: Option<InvokeStepFunctionConfig>)
    ensures r == Some(InvokeStepFunctionConfig(Some("access-key"), Some("shhh"), Some("us-west-1"),
                                               Some(STEP_FUNCTION_ARN), OfSeconds(10), Some(PAYLOAD)))
  {
    FormatTen();
    var prefix, suffix := "{\"message\":\"", "!\"}";
    r := BuildConfigFromPlaceholders(TestVariables(), "ACCESS_KEY", "SECRET", "REGION", "ARN", "POLL_INTERVAL", 10,
                                     prefix, "MESSAGE", suffix);
    assert prefix + TestVariables()["MESSAGE"] + suffix == PAYLOAD;
  }

  /** Long.toString(10) is "10" */
  lemma FormatTen()
    ensures FormatLong(10) == "10"
  {
    assert NatDigits(1) == "1";
    assert NatDigits(10) == "10";
  }

  /** Long.valueOf("10") is 10 */
  lemma ParseTen()
    ensures ParseLong("10") == Some(10)
  {
    assert "10"[..1] == "1";
    assert DigitsValue("1") == 1;
  }

  /** `${NAME}` on its own expands to NAME's value */
  lemma BracedAlone(name: string, vars: map<string, string>)
    requires IsName(name, true) && name in vars
    ensures ReplaceMacro("${" + name + "}", vars) == vars[name]
  {
    BracedPlaceholder(name, "", vars);
    assert "${" + name + "}" + "" == "${" + name + "}";
  }

  /** Long.valueOf("abc") throws, so "abc" is no poll interval */
  lemma AbcIsNoInterval()
    ensures PollIntervalFor(Some("abc"), map[]) == None
  {
    ReplaceMacroNoPlaceholder("abc", map[]);
    assert !IsDigit("abc"[0]);
  }

  /** A poll interval "abc": the step fails before any request reaches the service */
  method InvalidPollInterval() returns (r: Option<bool>, startCount: nat, describeCount: nat)
    ensures r.None? && startCount == 0 && describeCount == 0
  {
    var builder := new InvokeStepFunctionBuilder(true, None, None, None, Some(STEP_FUNCTION_ARN), Some("abc"), Some(PAYLOAD));
    AbcIsNoInterval();
    var client := new Client(Some("exec-1"), [DescribeResult(SUCCEEDED, None)]);
    var log := new Log();
    r := builder.Perform(map[], client, log);
    startCount, describeCount := |client.starts|, |client.describes|;
  }

  /** An execution that ends at once with a final status: the step passes exactly when it is SUCCEEDED */
  method PerformOutcome(status: string) returns (r: Option<bool>)
    requires status != RUNNING
    ensures r == Some(status == "SUCCEEDED")
  {
    var builder := new InvokeStepFunctionBuilder(true, None, None, None, Some(STEP_FUNCTION_ARN), Some("10"), Some(PAYLOAD));
    ReplaceMacroNoPlaceholder("10", map[]);
    ParseTen();
    var script := [DescribeResult(status, None)];
    FirstTerminalAt(script, 0);
    var client := new Client(Some("exec-1"), script);
    var log := new Log();
    r := builder.Perform(map[], client, log);
  }

  /** Long.valueOf("-5") is -5 */
  lemma ParseMinusFive()
    ensures ParseLong("-5") == Some(-5)
  {
    assert NatDigits(5) == "5";
    assert FormatLong(-5) == "-5";
    ParseFormatRoundTrip(-5);
  }

  /**
   * A poll interval "-5" is accepted by Long.valueOf, but the step's ThreadSleeper
   * rejects the sleep of -5000 ms: an execution found RUNNING fails the step.
   */
  method NegativeIntervalWhileRunning() returns (r: Option<bool>)
    ensures r.None?
  {
    ReplaceMacroNoPlaceholder("-5", map[]);
    ParseMinusFive();
    var script := [DescribeResult(RUNNING, None), DescribeResult(SUCCEEDED, None)];
    FirstTerminalAt(script, 1);
    var builder := new InvokeStepFunctionBuilder(false, None, None, None, Some(STEP_FUNCTION_ARN), Some("-5"), Some(PAYLOAD));
    var client := new Client(Some("exec-1"), script);
    var log := new Log();
    r := builder.Perform(map[], client, log);
  }

  /** With the same interval, an execution that has already finished needs no sleep and passes */
  method NegativeIntervalAlreadyDone() returns (r: Option<bool>)
    ensures r == Some(true)
  {
    ReplaceMacroNoPlaceholder("-5", map[]);
    ParseMinusFive();
    var script := [DescribeResult(SUCCEEDED, None)];
    FirstTerminalAt(script, 0);
    var builder := new InvokeStepFunctionBuilder(false, None, None, None, Some(STEP_FUNCTION_ARN), Some("-5"), Some(PAYLOAD));
    var client := new Client(Some("exec-1"), script);
    var log := new Log();
    r := builder.Perform(map[], client, log);
  }
}
