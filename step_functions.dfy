/**
 * The collaborators of an invocation: the Step Functions API client, modelled as a
 * scripted oracle that records every request it receives; the sleeper, which records
 * the duration of every sleep; and the log, which records the lines written to it.
 * Also the facts about a scripted run of describe responses that both poll loops use.
 */
module StepFunctions {
  import opened Wrappers
  import JavaLang

  /** ExecutionStatus.RUNNING.name(), the only non-terminal status */
  const RUNNING: string := "RUNNING"
  /** ExecutionStatus.SUCCEEDED.name() */
  const SUCCEEDED: string := "SUCCEEDED"

  /** What a describe-execution call reports: the status code and the output, which may be absent */
  datatype DescribeResult = DescribeResult(status: string, output: Option<string>)

  /** A start-execution request: the state machine to run and its input */
  datatype StartRequest = StartRequest(stateMachineArn: Option<string>, input: Option<string>)

  /** The position of the first response in script whose status is not RUNNING, if there is one */
  function FirstTerminal(script: seq<DescribeResult>): (k: Option<nat>)
    ensures k.Some? ==> k.value < |script| && script[k.value].status != RUNNING
    ensures forall i :: 0 <= i < (if k.Some? then k.value else |script|) ==> script[i].status == RUNNING
  {
    if script == [] then None
    else if script[0].status != RUNNING then Some(0)
    else
      match FirstTerminal(script[1..])
      case None => None
      case Some(j) => Some(j + 1)
  }

  /** The first non-RUNNING response is the one FirstTerminal finds */
  lemma {:induction false} FirstTerminalAt(script: seq<DescribeResult>, k: nat)
    requires k < |script| && script[k].status != RUNNING
    requires forall i :: 0 <= i < k ==> script[i].status == RUNNING
    ensures FirstTerminal(script) == Some(k)
  {
    if k > 0 {
      var tail := script[1..];
      assert script[0].status == RUNNING;
      assert tail[k - 1] == script[k];
      assert forall i :: 0 <= i < k - 1 ==> tail[i].status == RUNNING by {
        forall i | 0 <= i < k - 1
          ensures tail[i].status == RUNNING
        {
          assert tail[i] == script[i + 1];
        }
      }
      FirstTerminalAt(tail, k - 1);
    }
  }

  /**
   * A poll loop fed with script reaches a terminal response: there is one, and if it
   * is not the very first, the loop is able to sleep between polls.
   */
  predicate Completes(script: seq<DescribeResult>, canSleep: bool)
  {
    FirstTerminal(script).Some? && (FirstTerminal(script).value == 0 || canSleep)
  }

  /** The terminal response of a run */
  function Terminal(script: seq<DescribeResult>): DescribeResult
    requires FirstTerminal(script).Some?
  {
    script[FirstTerminal(script).value]
  }

  /** Which credentials the client is built with */
  datatype Credentials =
    | DefaultProviderChain
    | StaticCredentials(accessKeyId: Option<string>, secretKey: Option<string>)

  /** How the Step Functions client is built: its region and its credentials */
  datatype ClientSettings = ClientSettings(region: Option<string>, credentials: Credentials)

  /** The events written to the build log, by kind; the exact wording is not modelled */
  datatype LogLine =
    | BuildVariables(variables: seq<(string, string)>)
    | Invoking(stateMachineArn: Option<string>, payload: Option<string>)
    | Started(executionArn: string)
    | StillExecuting(pollInterval: JavaLang.Duration)
    | ExecutionStatus(status: string)
    | FinalStatus(status: string)
    | Output(output: Option<string>)

  /**
   * The AWS Step Functions client. A start call answers startResponse (None: the
   * call fails); describe calls answer the scripted responses in order, and a
   * describe call made once the script is used up fails.
   */
  class Client {
    const startResponse: Option<string>
    var script: seq<DescribeResult>
    var starts: seq<StartRequest>
    var describes: seq<string>

    constructor (startResponse: Option<string>, script: seq<DescribeResult>)
      ensures this.startResponse == startResponse && this.script == script
      ensures starts == [] && describes == []
    {
      this.startResponse := startResponse;
      this.script := script;
      starts := [];
      describes := [];
    }

    /** startExecution: records the request and answers the new execution's ARN */
    method StartExecution(request: StartRequest) returns (executionArn: Option<string>)
      modifies this`starts
      ensures starts == old(starts) + [request]
      ensures executionArn == startResponse
    {
      starts := starts + [request];
      executionArn := startResponse;
    }

    /** describeExecution: records the execution asked about and answers the next scripted response */
    method DescribeExecution(executionArn: string) returns (result: Option<DescribeResult>)
      modifies this`script, this`describes
      ensures describes == old(describes) + [executionArn]
      ensures old(script) == [] ==> result.None? && script == []
      ensures old(script) != [] ==> result == Some(old(script)[0]) && script == old(script)[1..]
    {
      describes := describes + [executionArn];
      if script == [] {
        result := None;
      } else {
        result := Some(script[0]);
        script := script[1..];
      }
    }
  }

  /**
   * The sleeper. ThreadSleeper hands the duration to Thread.sleep, which throws
   * IllegalArgumentException on a negative duration (rejectsNegative); a sleeper
   * that does not check accepts every duration. A sleep that goes ahead is recorded
   * and may end in an interruption, which it reports.
   */
  class Sleeper {
    const rejectsNegative: bool
    var slept: seq<int>

    constructor (rejectsNegative: bool)
      ensures this.rejectsNegative == rejectsNegative && slept == []
    {
      this.rejectsNegative := rejectsNegative;
      slept := [];
    }

    /** Whether a sleep of millis goes ahead rather than throwing */
    predicate Accepts(millis: int)
    {
      !rejectsNegative || millis >= 0
    }

    method Sleep(millis: int) returns (ok: bool, interrupted: bool)
      modifies this`slept
      ensures ok == Accepts(millis)
      ensures slept == if ok then old(slept) + [millis] else old(slept)
    {
      ok := Accepts(millis);
      interrupted := false;
      if ok {
        slept := slept + [millis];
        interrupted := *;
      }
    }
  }

  /** The build log */
  class Log {
    var lines: seq<LogLine>

    constructor ()
      ensures lines == []
    {
      lines := [];
    }

    method Println(line: LogLine)
      modifies this`lines
      ensures lines == old(lines) + [line]
    {
      lines := lines + [line];
    }
  }
}
