/**
 * TriggerStepFunctionBuilder, the original build step. It interpolates the build
 * variables into the payload and the state machine ARN by one replaceAll per
 * variable, starts the execution, polls it with its own interval rule and passes
 * exactly when the final status is SUCCEEDED. None as the answer stands for an
 * exception that ends the build step: a malformed replacement, a failed remote call
 * or a negative sleep.
 */
module TriggerBuilder {
  import opened Wrappers
  import opened JavaLang
  import opened JavaRegex
  import opened StepFunctions

  /** Milliseconds slept between polls when the configured interval is 0 */
  const DEFAULT_POLL_INTERVAL: Long := 30000

  /**
   * The argument of Thread.sleep between two polls: the default for an interval of
   * 0 seconds, otherwise the interval times 1000 in 64-bit arithmetic.
   */
  function SleepMillis(pollIntervalSeconds: Long): (ms: Long)
    ensures pollIntervalSeconds == 0 ==> ms == DEFAULT_POLL_INTERVAL
    ensures pollIntervalSeconds != 0 ==> (ms - pollIntervalSeconds * 1000) % TWO_TO_64 == 0
    ensures pollIntervalSeconds != 0 && InLongRange(pollIntervalSeconds * 1000) ==> ms == pollIntervalSeconds * 1000
  {
    if pollIntervalSeconds == 0 then DEFAULT_POLL_INTERVAL else WrapLong(pollIntervalSeconds * 1000)
  }

  /** Away from 0 and overflow, the legacy rule and Duration.toMillis agree */
  lemma SleepMillisAgreesWithDuration(pollIntervalSeconds: Long)
    requires pollIntervalSeconds != 0 && OfSeconds(pollIntervalSeconds).ToMillis().Some?
    ensures SleepMillis(pollIntervalSeconds) == OfSeconds(pollIntervalSeconds).ToMillis().value
  {
  }

  /** An interval too long for a long number of milliseconds wraps round to a negative sleep */
  lemma OverflowingIntervalSleepsNegative()
    ensures SleepMillis(LONG_MAX / 1000 + 1) < 0
  {
    assert (LONG_MAX / 1000 + 1) * 1000 == LONG_MAX + 193;
  }

  /**
   * interpolateVariables on values: one replaceAll per entry, in iteration order,
   * each on the text the previous ones produced. No entries leave the pattern as it
   * is, and values without `\` and `$` never make it fail.
   */
  function ApplyEntries(pattern: string, buildVariables: seq<(string, string)>): (r: Option<string>)
    ensures buildVariables == [] ==> r == Some(pattern)
    ensures (forall i :: 0 <= i < |buildVariables| ==> IsLiteralReplacement(buildVariables[i].1)) ==> r.Some?
    decreases |buildVariables|
  {
    if buildVariables == [] then Some(pattern)
    else
      var last := buildVariables[|buildVariables| - 1];
      match ApplyEntries(pattern, buildVariables[..|buildVariables| - 1])
      case None => None
      case Some(t) => ReplaceAllKey(t, last.0, last.1)
  }

  /** Once a replaceAll has failed, the whole interpolation fails */
  lemma {:induction false} ApplyEntriesFailurePersists(pattern: string, buildVariables: seq<(string, string)>, i: nat)
    requires i <= |buildVariables| && ApplyEntries(pattern, buildVariables[..i]).None?
    ensures ApplyEntries(pattern, buildVariables).None?
    decreases |buildVariables| - i
  {
    if i < |buildVariables| {
      var next := buildVariables[..i + 1];
      assert next[..|next| - 1] == buildVariables[..i];
      ApplyEntriesFailurePersists(pattern, buildVariables, i + 1);
    } else {
      assert buildVariables[..i] == buildVariables;
    }
  }

  /** A pattern without a dollar sign comes out unchanged, whatever the variables */
  lemma {:induction false} ApplyEntriesWithoutDollar(pattern: string, buildVariables: seq<(string, string)>)
    requires '$' !in pattern
    ensures ApplyEntries(pattern, buildVariables) == Some(pattern)
    decreases |buildVariables|
  {
    if buildVariables != [] {
      var last := buildVariables[|buildVariables| - 1];
      ApplyEntriesWithoutDollar(pattern, buildVariables[..|buildVariables| - 1]);
      ReplaceAllKeyWithoutDollar(pattern, last.0, last.1);
    }
  }

  /** With one variable, interpolation is that variable's replaceAll */
  lemma ApplyOneEntry(pattern: string, key: string, value: string)
    ensures ApplyEntries(pattern, [(key, value)]) == ReplaceAllKey(pattern, key, value)
  {
    assert [(key, value)][..0] == [];
  }

  /** The result depends on the iteration order: `$AB`, with variables A and AB */
  lemma InterpolationDependsOnOrder()
    ensures ApplyEntries("$AB", [("A", "1"), ("AB", "2")]) == Some("1B")
    ensures ApplyEntries("$AB", [("AB", "2"), ("A", "1")]) == Some("2")
  {
    var e1, e2 := [("A", "1"), ("AB", "2")], [("AB", "2"), ("A", "1")];
    assert e1[..1] == [("A", "1")] && e2[..1] == [("AB", "2")];
    assert ApplyEntries("$AB", e1[..1]) == Some("1B") by {
      ApplyOneEntry("$AB", "A", "1");
      BareKey("A", "B", "1");
      assert "$" + "A" + "B" == "$AB";
      ReplaceAllKeyWithoutDollar("B", "A", "1");
      assert "1" + "B" == "1B";
    }
    ReplaceAllKeyWithoutDollar("1B", "AB", "2");
    assert ApplyEntries("$AB", e2[..1]) == Some("2") by {
      ApplyOneEntry("$AB", "AB", "2");
      BareKey("AB", "", "2");
      assert "$" + "AB" + "" == "$AB";
      assert ReplaceAllKey("", "AB", "2") == Some("");
      assert "2" + "" == "2";
    }
    ReplaceAllKeyWithoutDollar("2", "A", "1");
  }

  /** `$PAYLOAD` and `${PAYLOAD}` both take the value of PAYLOAD */
  lemma PayloadInterpolates(value: string)
    requires IsLiteralReplacement(value)
    ensures ApplyEntries("$PAYLOAD", [("PAYLOAD", value)]) == Some(value)
    ensures ApplyEntries("${PAYLOAD}", [("PAYLOAD", value)]) == Some(value)
  {
    ApplyOneEntry("$PAYLOAD", "PAYLOAD", value);
    TrailingBareKey("PAYLOAD", value);
    assert "$" + "PAYLOAD" == "$PAYLOAD";
    ApplyOneEntry("${PAYLOAD}", "PAYLOAD", value);
    BracedKey("PAYLOAD", "", value);
    assert "${" + "PAYLOAD" + "}" + "" == "${PAYLOAD}";
    assert ReplaceAllKey("", "PAYLOAD", value) == Some("");
    assert value + "" == value;
  }

  /** A value holding a lone `$` makes the interpolation fail once its key occurs */
  lemma DollarValueFails(key: string, rest: string)
    ensures ApplyEntries("${" + key + "}" + rest, [(key, "$")]).None?
  {
    ApplyOneEntry("${" + key + "}" + rest, key, "$");
    MalformedReplacements("${" + key + "}");
    MalformedReplacementFails(key, rest, "$");
  }

  /** REGEX_LINE_TERMINATORS: what `.` does not match */
  predicate IsLineTerminator(c: char)
  {
    c == '\n' || c == '\r' || c == '\U{0085}' || c == '\U{2028}' || c == '\U{2029}'
  }

  predicate NoLineTerminator(s: string)
  {
    forall i :: 0 <= i < |s| ==> !IsLineTerminator(s[i])
  }

  lemma NoLineTerminatorPrefix(s: string, j: nat)
    requires NoLineTerminator(s) && j <= |s|
    ensures NoLineTerminator(s[..j])
  {
  }

  /** The three groups of a BUILD_VARIABLE_REGEX match: `$` or `${`, the name, `}` or nothing */
  datatype Groups = Groups(open: string, name: string, close: string)

  /** The language of `(\$\{?)(.*[^\}])(\}?)`, split into its groups */
  predicate IsBuildVariable(g: Groups)
  {
    (g.open == "$" || g.open == "${") && IsNameAndClose(g.name, g.close)
  }

  /** The language of `(.*[^\}])(\}?)`, split into its groups */
  predicate IsNameAndClose(name: string, close: string)
  {
    && (close == "" || close == "}")
    && name != [] && name[|name| - 1] != '}'
    && NoLineTerminator(name[..|name| - 1])
  }

  /**
   * How `(.*[^\}])(\}?)` splits the text after the first group when it matches all
   * of it: the greedy `.*` takes all but the last character if it can, and all but
   * the last two otherwise, the last one then being the closing brace.
   */
  function SplitName(r: string): (p: Option<(string, string)>)
    ensures p.Some? ==> p.value.0 + p.value.1 == r
    ensures p.Some? ==> IsNameAndClose(p.value.0, p.value.1)
  {
    if |r| >= 1 && r[|r| - 1] != '}' && NoLineTerminator(r[..|r| - 1]) then Some((r, ""))
    else if |r| >= 2 && r[|r| - 1] == '}' && r[|r| - 2] != '}' && NoLineTerminator(r[..|r| - 2]) then
      Some((r[..|r| - 1], "}"))
    else None
  }

  /**
   * BUILD_VARIABLE_REGEX.matcher(s).matches() and its groups. The greedy `\{?` is
   * tried first, and given back when the rest cannot match after it.
   */
  function MatchBuildVariable(s: string): (g: Option<Groups>)
    ensures g.Some? ==> g.value.open + g.value.name + g.value.close == s && IsBuildVariable(g.value)
    ensures g.Some? && g.value.open == "$" ==> !(|s| >= 2 && s[1] == '{' && SplitName(s[2..]).Some?)
  {
    if |s| >= 2 && s[0] == '$' && s[1] == '{' && SplitName(s[2..]).Some? then
      var p := SplitName(s[2..]).value;
      assert s == s[..2] + s[2..] && s[..2] == "${";
      Some(Groups("${", p.0, p.1))
    else if |s| >= 1 && s[0] == '$' && SplitName(s[1..]).Some? then
      var p := SplitName(s[1..]).value;
      assert s == [s[0]] + s[1..];
      Some(Groups("$", p.0, p.1))
    else None
  }

  /** Every string of the regex's language is matched */
  lemma MatchesEveryBuildVariable(g: Groups)
    requires IsBuildVariable(g)
    ensures MatchBuildVariable(g.open + g.name + g.close).Some?
  {
    var s := g.open + g.name + g.close;
    var r := g.name + g.close;
    assert s[|g.open|..] == r;
    var n := |g.name|;
    if g.close == "" {
      assert r == g.name;
    } else {
      assert r[..|r| - 1] == g.name && r[|r| - 1] == '}' && r[|r| - 2] == g.name[n - 1];
      assert r[..|r| - 2] == g.name[..n - 1];
    }
    assert SplitName(r).Some?;
    if g.open == "$" {
      assert s[0] == '$' && s[1..] == r;
    } else {
      assert s[0] == '$' && s[1] == '{' && s[2..] == r;
    }
  }

  /** `$NAME`, for a name not starting with `{`, gives NAME as the name group */
  lemma BareBuildVariable(name: string)
    requires name != [] && name[0] != '{' && name[|name| - 1] != '}' && NoLineTerminator(name)
    ensures MatchBuildVariable("$" + name) == Some(Groups("$", name, ""))
  {
    var s := "$" + name;
    assert s[1..] == name && s[1] == name[0];
    NoLineTerminatorPrefix(name, |name| - 1);
  }

  /** `${NAME}` gives NAME as the name group */
  lemma BracedBuildVariable(name: string)
    requires name != [] && name[|name| - 1] != '}' && NoLineTerminator(name)
    ensures MatchBuildVariable("${" + name + "}") == Some(Groups("${", name, "}"))
  {
    var s := "${" + name + "}";
    var r := name + "}";
    assert s[2..] == r && s[0] == '$' && s[1] == '{';
    assert r[..|r| - 1] == name && r[|r| - 2] == name[|name| - 1];
    assert r[..|r| - 2] == name[..|name| - 1];
    NoLineTerminatorPrefix(name, |name| - 1);
  }

  /** The regex's two test cases: `$PAYLOAD` and `${PAYLOAD}` both name PAYLOAD */
  lemma PayloadVariableMatches()
    ensures MatchBuildVariable("$PAYLOAD") == Some(Groups("$", "PAYLOAD", ""))
    ensures MatchBuildVariable("${PAYLOAD}") == Some(Groups("${", "PAYLOAD", "}"))
  {
    assert NoLineTerminator("PAYLOAD");
    BareBuildVariable("PAYLOAD");
    assert "$" + "PAYLOAD" == "$PAYLOAD";
    BracedBuildVariable("PAYLOAD");
    assert "${" + "PAYLOAD" + "}" == "${PAYLOAD}";
  }

  class TriggerStepFunctionBuilder {
    const useInstanceCredentials: bool
    const awsAccessKeyId: string
    const awsSecretKey: string
    const awsRegion: string
    const stateMachineArn: string
    const pollIntervalSeconds: Long
    const payload: string

    constructor (useInstanceCredentials: bool, awsAccessKeyId: string, awsSecretKey: string, awsRegion: string,
                 stateMachineArn: string, pollIntervalSeconds: Long, payload: string)
      ensures this.useInstanceCredentials == useInstanceCredentials
      ensures this.awsAccessKeyId == awsAccessKeyId && this.awsSecretKey == awsSecretKey
      ensures this.awsRegion == awsRegion && this.stateMachineArn == stateMachineArn
      ensures this.pollIntervalSeconds == pollIntervalSeconds && this.payload == payload
    {
      this.useInstanceCredentials := useInstanceCredentials;
      this.awsAccessKeyId := awsAccessKeyId;
      this.awsSecretKey := awsSecretKey;
      this.awsRegion := awsRegion;
      this.stateMachineArn := stateMachineArn;
      this.pollIntervalSeconds := pollIntervalSeconds;
      this.payload := payload;
    }

    /** createStepFunctionClient: the configured region and key pair; useInstanceCredentials is not consulted */
    function ClientSettingsFor(): (s: ClientSettings)
      reads this
      ensures s.region == Some(awsRegion)
      ensures s.credentials.StaticCredentials?
      ensures s.credentials.accessKeyId == Some(awsAccessKeyId) && s.credentials.secretKey == Some(awsSecretKey)
    {
      ClientSettings(Some(awsRegion), StaticCredentials(Some(awsAccessKeyId), Some(awsSecretKey)))
    }

    /** interpolateVariables: the entries applied one after another, stopping at the first failure */
    static method InterpolateVariables(pattern: string, buildVariables: seq<(string, string)>)
      returns (interpolated: Option<string>)
      ensures interpolated == ApplyEntries(pattern, buildVariables)
      ensures buildVariables == [] ==> interpolated == Some(pattern)
    {
      var current := pattern;
      for i := 0 to |buildVariables|
        invariant ApplyEntries(pattern, buildVariables[..i]) == Some(current)
      {
        var entry := buildVariables[i];
        var next := ReplaceAllKey(current, entry.0, entry.1);
        assert buildVariables[..i + 1][..i] == buildVariables[..i];
        if next.None? {
          ApplyEntriesFailurePersists(pattern, buildVariables, i + 1);
          return None;
        }
        current := next.value;
      }
      assert buildVariables[..|buildVariables|] == buildVariables;
      interpolated := Some(current);
    }

    /** startExecution: one start request carrying the state machine ARN and the payload */
    static method StartExecution(client: Client, stateMachineArn: string, payload: string)
      returns (executionArn: Option<string>)
      modifies client`starts
      ensures client.starts == old(client.starts) + [StartRequest(Some(stateMachineArn), Some(payload))]
      ensures executionArn == client.startResponse
    {
      executionArn := client.StartExecution(StartRequest(Some(stateMachineArn), Some(payload)));
    }

    /**
     * awaitCompletion: describes the execution, then, as long as the status is
     * RUNNING, logs it, sleeps for SleepMillis (an interruption is ignored; a
     * negative duration makes Thread.sleep throw) and describes again.
     */
    method AwaitCompletion(client: Client, executionArn: string, log: Log, sleeper: Sleeper)
      returns (r: Option<DescribeResult>)
      modifies client`script, client`describes, log`lines, sleeper`slept
      ensures r.Some? <==> Completes(old(client.script), SleepMillis(pollIntervalSeconds) >= 0)
      ensures r.Some? ==> r.value == Terminal(old(client.script))
      ensures r.Some? ==> client.script == old(client.script)[FirstTerminal(old(client.script)).value + 1..]
      ensures r.Some? ==>
        client.describes == old(client.describes) + Repeat(executionArn, FirstTerminal(old(client.script)).value + 1)
      ensures r.Some? ==>
        sleeper.slept == old(sleeper.slept) + Repeat(SleepMillis(pollIntervalSeconds), FirstTerminal(old(client.script)).value)
      ensures r.Some? ==> log.lines == old(log.lines) + Repeat(ExecutionStatus(RUNNING), FirstTerminal(old(client.script)).value)
    {
      ghost var script := client.script;
      var millis := SleepMillis(pollIntervalSeconds);
      var response := client.DescribeExecution(executionArn);
      if response.None? {
        return None;
      }
      var result := response.value;
      ghost var n: nat := 1;
      while result.status == RUNNING
        invariant 1 <= n <= |script|
        invariant client.script == script[n..]
        invariant result == script[n - 1]
        invariant forall i :: 0 <= i < n - 1 ==> script[i].status == RUNNING
        invariant n > 1 ==> millis >= 0
        invariant client.describes == old(client.describes) + Repeat(executionArn, n)
        invariant sleeper.slept == old(sleeper.slept) + Repeat(millis, n - 1)
        invariant log.lines == old(log.lines) + Repeat(ExecutionStatus(RUNNING), n - 1)
        decreases |client.script|
      {
        log.Println(ExecutionStatus(result.status));
        if millis < 0 {
          return None;
        }
        var _, _ := sleeper.Sleep(millis);
        response := client.DescribeExecution(executionArn);
        if response.None? {
          return None;
        }
        result := response.value;
        RepeatOneMore(executionArn, n);
        RepeatOneMore(millis, n - 1);
        RepeatOneMore(ExecutionStatus(RUNNING), n - 1);
        n := n + 1;
      }
      r := Some(result);
    }

    /**
     * perform: logs the build variables, interpolates the payload and then the ARN,
     * starts the execution with them, waits for it to finish, logs the final status
     * and output, and passes exactly when the final status is SUCCEEDED.
     */
    method Perform(buildVariables: seq<(string, string)>, client: Client, log: Log, sleeper: Sleeper)
      returns (r: Option<bool>)
      modifies client`starts, client`script, client`describes, log`lines, sleeper`slept
      ensures ApplyEntries(payload, buildVariables).None? || ApplyEntries(stateMachineArn, buildVariables).None? ==>
        && r.None?
        && client.starts == old(client.starts) && client.describes == old(client.describes)
        && sleeper.slept == old(sleeper.slept)
        && log.lines == old(log.lines) + [BuildVariables(buildVariables)]
      ensures ApplyEntries(payload, buildVariables).Some? && ApplyEntries(stateMachineArn, buildVariables).Some? ==>
        client.starts == old(client.starts) + [StartRequest(ApplyEntries(stateMachineArn, buildVariables),
                                                           ApplyEntries(payload, buildVariables))]
      ensures r.Some? <==>
        && ApplyEntries(payload, buildVariables).Some?
        && ApplyEntries(stateMachineArn, buildVariables).Some?
        && client.startResponse.Some?
        && Completes(old(client.script), SleepMillis(pollIntervalSeconds) >= 0)
      ensures r.Some? ==> r.value == (Terminal(old(client.script)).status == SUCCEEDED)
      ensures r.Some? ==>
        client.describes
        == old(client.describes) + Repeat(client.startResponse.value, FirstTerminal(old(client.script)).value + 1)
      ensures r.Some? ==>
        sleeper.slept == old(sleeper.slept) + Repeat(SleepMillis(pollIntervalSeconds), FirstTerminal(old(client.script)).value)
      ensures r.Some? ==>
        log.lines == old(log.lines)
                     + [BuildVariables(buildVariables),
                        Invoking(ApplyEntries(stateMachineArn, buildVariables), ApplyEntries(payload, buildVariables)),
                        Started(client.startResponse.value)]
                     + Repeat(ExecutionStatus(RUNNING), FirstTerminal(old(client.script)).value)
                     + [FinalStatus(Terminal(old(client.script)).status), Output(Terminal(old(client.script)).output)]
    {
      log.Println(BuildVariables(buildVariables));
      var interpolatedPayload := InterpolateVariables(payload, buildVariables);
      if interpolatedPayload.None? {
        return None;
      }
      var interpolatedArn := InterpolateVariables(stateMachineArn, buildVariables);
      if interpolatedArn.None? {
        return None;
      }
      log.Println(Invoking(interpolatedArn, interpolatedPayload));
      var executionArn := StartExecution(client, interpolatedArn.value, interpolatedPayload.value);
      if executionArn.None? {
        return None;
      }
      log.Println(Started(executionArn.value));
      ghost var announced := log.lines;
      assert announced
             == old(log.lines) + [BuildVariables(buildVariables), Invoking(interpolatedArn, interpolatedPayload),
                                  Started(executionArn.value)];
      assert client.describes == old(client.describes) && client.script == old(client.script);
      assert sleeper.slept == old(sleeper.slept) && executionArn.value == client.startResponse.value;
      var result := AwaitCompletion(client, executionArn.value, log, sleeper);
      if result.None? {
        return None;
      }
      assert client.describes
             == old(client.describes) + Repeat(client.startResponse.value, FirstTerminal(old(client.script)).value + 1);
      ghost var polled := log.lines;
      log.Println(FinalStatus(result.value.status));
      log.Println(Output(result.value.output));
      assert log.lines == polled + [FinalStatus(result.value.status), Output(result.value.output)];
      r := Some(result.value.status == SUCCEEDED);
    }
  }
}

/** The legacy build step run against a scripted client */
module TriggerBuilderScenarios {
  import opened Wrappers
  import opened JavaLang
  import opened JavaRegex
  import opened StepFunctions
  import opened TriggerBuilder

  const STATE_MACHINE_ARN: string := "arn:aws:states:us-east-1:123456789012:stateMachine:my_step_function"
  const EXECUTION_ARN: string := "arn:aws:states:us-east-1:123456789012:execution:my_step_function:execution-id"

  /** Runs the step with no build variables, polling interval pollIntervalSeconds, against script */
  method PerformWith(pollIntervalSeconds: Long, script: seq<DescribeResult>) returns (r: Option<bool>, slept: seq<int>)
    ensures r.Some? <==> Completes(script, SleepMillis(pollIntervalSeconds) >= 0)
    ensures r.Some? ==> r.value == (Terminal(script).status == SUCCEEDED)
    ensures r.Some? ==> slept == Repeat(SleepMillis(pollIntervalSeconds), FirstTerminal(script).value)
  {
    var builder := new TriggerStepFunctionBuilder(false, "key", "secret", "us-east-1", STATE_MACHINE_ARN,
                                                  pollIntervalSeconds, "{}");
    var client := new Client(Some(EXECUTION_ARN), script);
    var log := new Log();
    var sleeper := new Sleeper(true);
    r := builder.Perform([], client, log, sleeper);
    slept := sleeper.slept;
  }

  /** An interval of 0 seconds: one RUNNING poll, then SUCCEEDED, after a sleep of 30000 ms */
  method ZeroIntervalScenario() returns (r: Option<bool>, slept: seq<int>)
    ensures r == Some(true) && slept == [30000]
  {
    var script := [DescribeResult(RUNNING, None), DescribeResult(SUCCEEDED, Some("out"))];
    FirstTerminalAt(script, 1);
    r, slept := PerformWith(0, script);
  }

  /** A negative interval fails the step as soon as the execution is found RUNNING, and not before */
  method NegativeIntervalScenario() returns (waited: Option<bool>, immediate: Option<bool>)
    ensures waited.None? && immediate == Some(false)
  {
    var running := [DescribeResult(RUNNING, None), DescribeResult(SUCCEEDED, None)];
    FirstTerminalAt(running, 1);
    var sleptWaiting, sleptImmediate;
    waited, sleptWaiting := PerformWith(-1, running);
    var failed := [DescribeResult("FAILED", None)];
    FirstTerminalAt(failed, 0);
    immediate, sleptImmediate := PerformWith(-1, failed);
  }
}
