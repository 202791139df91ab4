/**
 * InvokeStepFunctionService: starts one execution of the configured state machine,
 * polls it until its status is no longer RUNNING, and reports the outcome.
 * None as the answer of a method stands for an exception that ends the invocation
 * without a result: a failed remote call, or a poll interval too long for
 * Duration.toMillis.
 */
module InvokeService {
  import opened Wrappers
  import opened JavaLang
  import opened StepFunctions
  import opened Configs
  import opened Results

  class InvokeStepFunctionService {
    const client: Client
    const config: InvokeStepFunctionConfig
    const log: Log
    const sleeper: Sleeper

    constructor (client: Client, config: InvokeStepFunctionConfig, log: Log, sleeper: Sleeper)
      ensures this.client == client && this.config == config && this.log == log && this.sleeper == sleeper
    {
      this.client := client;
      this.config := config;
      this.log := log;
      this.sleeper := sleeper;
    }

    /**
     * Whether a sleep between polls goes ahead: the poll interval converts to
     * milliseconds and the sleeper accepts that many
     */
    predicate CanSleep()
    {
      config.pollInterval.ToMillis().Some? && sleeper.Accepts(config.pollInterval.ToMillis().value)
    }

    /** Announces the invocation and sends the start request built from the configuration */
    method StartExecution() returns (executionArn: Option<string>)
      modifies client`starts, log`lines
      ensures client.starts == old(client.starts) + [StartRequest(config.stateMachineArn, config.payload)]
      ensures log.lines == old(log.lines) + [Invoking(config.stateMachineArn, config.payload)]
      ensures executionArn == client.startResponse
    {
      log.Println(Invoking(config.stateMachineArn, config.payload));
      executionArn := client.StartExecution(StartRequest(config.stateMachineArn, config.payload));
    }

    /**
     * Describes the execution once, then, as long as the status is RUNNING, logs,
     * sleeps for the poll interval (an interruption is ignored) and describes again.
     * Answers the first response that is not RUNNING.
     */
    method AwaitCompletion(executionArn: string) returns (r: Option<DescribeResult>)
      modifies client`script, client`describes, log`lines, sleeper`slept
      ensures r.Some? <==> Completes(old(client.script), CanSleep())
      ensures r.Some? ==> r.value == Terminal(old(client.script))
      ensures r.Some? ==> client.script == old(client.script)[FirstTerminal(old(client.script)).value + 1..]
      ensures r.Some? ==>
        client.describes == old(client.describes) + Repeat(executionArn, FirstTerminal(old(client.script)).value + 1)
      ensures r.Some? ==>
        sleeper.slept
        == old(sleeper.slept) + Repeat(config.pollInterval.seconds * 1000, FirstTerminal(old(client.script)).value)
      ensures r.Some? ==>
        log.lines == old(log.lines) + Repeat(StillExecuting(config.pollInterval), FirstTerminal(old(client.script)).value)
                     + [FinalStatus(r.value.status), Output(r.value.output)]
    {
      ghost var script := client.script;
      var response := client.DescribeExecution(executionArn);
      if response.None? {
        return None;
      }
      var result := response.value;
      ghost var n: nat := 1;
      while result.status == RUNNING
        invariant 1 <= n <= |script|
        invariant client.script == script[n..]
        invariant result == script[n - 1]
        invariant forall i :: 0 <= i < n - 1 ==> script[i].status == RUNNING
        invariant n > 1 ==> CanSleep()
        invariant client.describes == old(client.describes) + Repeat(executionArn, n)
        invariant sleeper.slept == old(sleeper.slept) + Repeat(config.pollInterval.seconds * 1000, n - 1)
        invariant log.lines == old(log.lines) + Repeat(StillExecuting(config.pollInterval), n - 1)
        decreases |client.script|
      {
        log.Println(StillExecuting(config.pollInterval));
        var millis := config.pollInterval.ToMillis();
        if millis.None? {
          return None;
        }
        var slept, _ := sleeper.Sleep(millis.value);
        if !slept {
          return None;
        }
        response := client.DescribeExecution(executionArn);
        if response.None? {
          return None;
        }
        result := response.value;
        n := n + 1;
      }
      FirstTerminalAt(script, n - 1);
      log.Println(FinalStatus(result.status));
      log.Println(Output(result.output));
      r := Some(result);
    }

    /**
     * Starts the execution, logs its ARN, waits for it to finish and reports the
     * execution ARN, the final output and whether the final status is SUCCEEDED.
     */
    method Invoke() returns (r: Option<InvokeStepFunctionResult>)
      modifies client`starts, client`script, client`describes, log`lines, sleeper`slept
      ensures client.starts == old(client.starts) + [StartRequest(config.stateMachineArn, config.payload)]
      ensures r.Some? <==>
        client.startResponse.Some? && Completes(old(client.script), CanSleep())
      ensures r.Some? ==>
        r.value == InvokeStepFunctionResult(Terminal(old(client.script)).output, client.startResponse,
                                            Terminal(old(client.script)).status == SUCCEEDED)
      ensures r.Some? ==>
        client.describes
        == old(client.describes) + Repeat(client.startResponse.value, FirstTerminal(old(client.script)).value + 1)
      ensures r.Some? ==>
        sleeper.slept
        == old(sleeper.slept) + Repeat(config.pollInterval.seconds * 1000, FirstTerminal(old(client.script)).value)
      ensures r.Some? ==>
        log.lines == old(log.lines)
                     + [Invoking(config.stateMachineArn, config.payload), Started(client.startResponse.value)]
                     + Repeat(StillExecuting(config.pollInterval), FirstTerminal(old(client.script)).value)
                     + [FinalStatus(Terminal(old(client.script)).status), Output(Terminal(old(client.script)).output)]
      ensures client.startResponse.None? ==>
        && client.describes == old(client.describes)
        && sleeper.slept == old(sleeper.slept)
        && log.lines == old(log.lines) + [Invoking(config.stateMachineArn, config.payload)]
    {
      var started := StartExecution();
      if started.None? {
        return None;
      }
      var executionArn := started.value;
      log.Println(Started(executionArn));
      ghost var announced := log.lines;
      assert announced == old(log.lines) + [Invoking(config.stateMachineArn, config.payload), Started(executionArn)];
      var result := AwaitCompletion(executionArn);
      if result.None? {
        return None;
      }
      var b := new Results.Builder();
      b := b.SetExecutionArn(Some(executionArn));
      b := b.SetOutput(result.value.output);
      b := b.SetSuccess(result.value.status == SUCCEEDED);
      r := Some(b.Build());
    }
  }
}

/** The service driven with the scripted client the service's own test cases use */
module InvokeServiceScenarios {
  import opened Wrappers
  import opened JavaLang
  import opened StepFunctions
  import opened Configs
  import opened Results
  import opened InvokeService

  const STATE_MACHINE_ARN: string := "arn:aws:states:us-east-1:123456789012:stateMachine:my_step_function"
  const EXECUTION_ARN: string := "arn:aws:states:us-east-1:123456789012:execution:my_step_function:execution-id"
  const PAYLOAD: string := "{\"message\":\"hello!\"}"

  const RUNNING_RESULT := DescribeResult(RUNNING, None)
  const SUCCESSFUL_RESULT := DescribeResult(SUCCEEDED, Some("some output"))

  function TestConfig(): InvokeStepFunctionConfig
  {
    InvokeStepFunctionConfig(Some(""), Some(""), Some(""), Some(STATE_MACHINE_ARN), OfSeconds(60), Some(PAYLOAD))
  }

  /** Invokes against a client whose describe calls answer script */
  method InvokeWith(script: seq<DescribeResult>) returns (r: Option<InvokeStepFunctionResult>, describes: seq<string>)
    ensures r.Some? <==> Completes(script, true)
    ensures r.Some? ==> r.value == InvokeStepFunctionResult(Terminal(script).output, Some(EXECUTION_ARN),
                                                          Terminal(script).status == SUCCEEDED)
    ensures r.Some? ==> describes == Repeat(EXECUTION_ARN, FirstTerminal(script).value + 1)
  {
    var client := new Client(Some(EXECUTION_ARN), script);
    var log := new Log();
    var sleeper := new Sleeper(false);
    var service := new InvokeStepFunctionService(client, TestConfig(), log, sleeper);
    r := service.Invoke();
    describes := client.describes;
  }

  /** RUNNING, RUNNING, SUCCEEDED: three describe calls and two sleeps of 60000 ms */
  method AwaitCompletionScenario() returns (describeCount: nat, sleeps: seq<int>)
    ensures describeCount == 3 && sleeps == [60000, 60000]
  {
    var script := [RUNNING_RESULT, RUNNING_RESULT, SUCCESSFUL_RESULT];
    FirstTerminalAt(script, 2);
    var client := new Client(Some(EXECUTION_ARN), script);
    var log := new Log();
    var sleeper := new Sleeper(false);
    var service := new InvokeStepFunctionService(client, TestConfig(), log, sleeper);
    var _ := service.AwaitCompletion(EXECUTION_ARN);
    describeCount := |client.describes|;
    sleeps := sleeper.slept;
    assert sleeps == Repeat(60000, 2);
  }

  /** RUNNING then SUCCEEDED: a successful result carrying the execution ARN and the output, after two describe calls */
  method InvokeSuccessScenario() returns (r: Option<InvokeStepFunctionResult>, describeCount: nat)
    ensures r == Some(InvokeStepFunctionResult(Some("some output"), Some(EXECUTION_ARN), true))
    ensures describeCount == 2
  {
    var script := [RUNNING_RESULT, SUCCESSFUL_RESULT];
    FirstTerminalAt(script, 1);
    var describes;
    r, describes := InvokeWith(script);
    describeCount := |describes|;
  }

  /** RUNNING then a final status without output: a failed result with the execution ARN and no output */
  method InvokeNotSucceededScenario(status: string) returns (r: Option<InvokeStepFunctionResult>, describeCount: nat)
    requires status in {"FAILED", "ABORTED", "TIMED_OUT"}
    ensures r == Some(InvokeStepFunctionResult(None, Some(EXECUTION_ARN), false))
    ensures describeCount == 2
  {
    var script := [RUNNING_RESULT, DescribeResult(status, None)];
    FirstTerminalAt(script, 1);
    var describes;
    r, describes := InvokeWith(script);
    describeCount := |describes|;
  }
}
