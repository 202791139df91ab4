# AWS Step Functions build step — a Dafny model

This project models the core of a Jenkins plugin that runs an AWS Step Functions
execution as a build step. The step starts one execution of a state machine, then
polls it until its status is no longer `RUNNING`. It passes exactly when the final
status is `SUCCEEDED`.

Two build steps are modelled:

* **`InvokeStepFunctionBuilder`** (module `InvokeBuilder`). It expands the
  configured templates against the build's variables into an immutable
  `InvokeStepFunctionConfig` (module `Configs`). It then hands the configuration to
  `InvokeStepFunctionService` (module `InvokeService`). The service starts the
  execution, polls it, and assembles an `InvokeStepFunctionResult` (module
  `Results`). Both value types come with their mutable builders, modelled as
  classes whose setters return the builder itself.
* **`TriggerStepFunctionBuilder`** (module `TriggerBuilder`), the older step. It
  expands build variables with one `String.replaceAll` per variable (module
  `JavaRegex`). It runs the same poll loop with its own interval rule. It also
  declares the placeholder regex `BUILD_VARIABLE_REGEX`.

The collaborators are in module `StepFunctions`:

* The AWS client is a `Client` object holding a script. A start call answers a
  fixed execution ARN, or fails. Each describe call answers the next scripted
  `(status, output)` pair, and fails once the script is used up. The client
  records every request it receives.
* The sleeper records the duration of every sleep. Whether a sleep was
  interrupted is an arbitrary choice, and the poll loops ignore it. A sleeper
  built with `rejectsNegative` stands for `ThreadSleeper`: like `Thread.sleep`, it
  throws on a negative duration. `InvokeStepFunctionBuilder` creates one for
  itself, as the source does. The service's tests use a mock that accepts any
  duration.
* The build log records tagged `LogLine` events, in order.

Java's `null` is `None` of `Option` (module `Wrappers`). An exception that ends a
build step is a `None` answer of the method that raises it. Such exceptions are a
failed remote call, a poll interval that `Long.valueOf` rejects, `Duration.toMillis`
overflow, a malformed `replaceAll` replacement, and `Thread.sleep` on a negative
duration. The last one arises in both build steps: the legacy step calls
`Thread.sleep` itself, and the newer one calls it through its `ThreadSleeper`.
Module `JavaLang` holds the 64-bit `long` range, `Long.valueOf` and
`Long.toString` on decimal text, and `Duration.ofSeconds(..).toMillis()`. Module
`Macro` models Jenkins' `hudson.Util.replaceMacro`. Its source is not part of this
model. `Macro.ReplaceMacro` is a single left-to-right pass:

* `$NAME` uses the longest run of letters, digits and `_` as NAME.
* `${NAME}` also allows `.` inside NAME.
* A known name is replaced by its value.
* An unknown placeholder, and every other character, is kept.
* A value that has been put in is not expanded again.

The scenario modules drive the model with concrete inputs:

* `InvokeServiceScenarios` replays the service's unit tests (the mocked client,
  the 60 s interval, the statuses they script) and states the outcomes those
  tests assert.
* `InvokeBuilderScenarios.BuildConfigNoVariables`, `BuildConfigVariables`,
  `BuildConfigFromPlaceholders` and `PerformOutcome` replay the newer step's
  unit tests. `AbcIsNoInterval`, `InvalidPollInterval`,
  `NegativeIntervalWhileRunning` and `NegativeIntervalAlreadyDone` are scenarios
  of their own for bad and negative poll intervals; no test covers them.
* `TriggerBuilder.PayloadVariableMatches` replays the legacy step's only test,
  on the variable regex. `TriggerBuilderScenarios` has no test counterpart: it
  runs the legacy step with no variables and with a zero or negative interval.

A few facts about the code that the model keeps:

* `Long.valueOf` accepts `"-5"`, so a negative poll interval is accepted when the
  configuration is built. The sleep that follows then throws.
* The emptiness test for the poll interval is made on the raw template, not on the
  expanded text.
* Only the legacy step logs the build variables.
* `hudson.Util.replaceMacro` names are `[A-Za-z0-9_]+` after a bare `$`, or
  `[A-Za-z0-9_.]+` between `${` and `}`.

## Model

| member | source | states |
|---|---|---|
| `InvokeService.InvokeStepFunctionService.StartExecution` | src/main/java/com/onetag/plugins/tasks/InvokeStepFunctionService.java:61-68 | Logs the invocation, then sends exactly one start request that carries the configured state-machine ARN and payload unchanged; answers the ARN the client returns |
| `InvokeService.InvokeStepFunctionService.constructor` | src/main/java/com/onetag/plugins/tasks/InvokeStepFunctionService.java:36-42 | The service keeps the client, configuration, log and sleeper it is given |
| `InvokeService.InvokeStepFunctionService.AwaitCompletion` | src/main/java/com/onetag/plugins/tasks/InvokeStepFunctionService.java:70-85 | Succeeds iff the script holds a non-`RUNNING` response and, if polling is needed, the interval converts to milliseconds and the sleeper accepts that duration; returns exactly the first non-`RUNNING` response; makes k+1 describe calls for k leading `RUNNING` responses, all with the given execution ARN; sleeps k times for pollInterval×1000 ms; logs k "still executing" lines then the final status and output; consumes nothing beyond the terminal response |
| `InvokeService.InvokeStepFunctionService.Invoke` | src/main/java/com/onetag/plugins/tasks/InvokeStepFunctionService.java:49-59 | Result is {output of the terminal response, execution ARN returned by start, success iff terminal status is exactly `SUCCEEDED`}; describe calls all use the started ARN; log order is Invoking, Started, one still-executing per `RUNNING`, final status, output; a failed start makes no describe call and no sleep |
| `InvokeServiceScenarios.InvokeWith` | src/test/java/com/onetag/plugins/tasks/InvokeStepFunctionServiceTest.java:55-63 | For any describe script, invoking with the test configuration yields a result iff the script reaches a terminal status, with that status's output, the test's execution ARN and success iff `SUCCEEDED` |
| `InvokeServiceScenarios.AwaitCompletionScenario` | src/test/java/com/onetag/plugins/tasks/InvokeStepFunctionServiceTest.java:111-119 | `[RUNNING, RUNNING, SUCCEEDED]` with a 60 s interval gives three describe calls and two sleeps of 60000 ms |
| `InvokeServiceScenarios.InvokeSuccessScenario` | src/test/java/com/onetag/plugins/tasks/InvokeStepFunctionServiceTest.java:65-77 | `RUNNING` then `SUCCEEDED` with output gives {output, execution ARN, success true} after two describe calls |
| `InvokeServiceScenarios.InvokeNotSucceededScenario` | src/test/java/com/onetag/plugins/tasks/InvokeStepFunctionServiceTest.java:79-109 | `RUNNING` then `FAILED`, `ABORTED` or `TIMED_OUT` without output gives {no output, execution ARN, success false} after two describe calls |
| `StepFunctions.FirstTerminal` | src/main/java/com/onetag/plugins/tasks/InvokeStepFunctionService.java:71-81 | The position found holds a non-`RUNNING` status and every earlier response is `RUNNING`; absent only if every response is `RUNNING` |
| `StepFunctions.FirstTerminalAt` | src/main/java/com/onetag/plugins/tasks/InvokeStepFunctionService.java:73-84 | Any position that holds a non-`RUNNING` status and has only `RUNNING` before it is the one `FirstTerminal` finds |
| `StepFunctions.Client.StartExecution` | src/main/java/com/onetag/plugins/tasks/InvokeStepFunctionService.java:64-67 | Records the start request and answers the scripted execution ARN |
| `StepFunctions.Client.DescribeExecution` | src/main/java/com/onetag/plugins/tasks/InvokeStepFunctionService.java:71-72 | Records the ARN described and answers the next scripted response, consuming it; fails on an empty script |
| `StepFunctions.Sleeper.Sleep` | src/main/java/com/onetag/plugins/util/Sleeper.java:9-18 | A sleep goes ahead iff the sleeper accepts the duration (a `ThreadSleeper` rejects negative ones); one that goes ahead is recorded whatever the interruption outcome, one that throws records nothing |
| `StepFunctions.Sleeper.constructor` | src/main/java/com/onetag/plugins/util/ThreadSleeper.java:9-15 | A new sleeper has slept nothing and rejects negative durations exactly when it stands for `Thread.sleep` |
| `Configs.InvokeStepFunctionConfig.Equals` | src/main/java/com/onetag/plugins/model/InvokeStepFunctionConfig.java:72-83 | True iff the other object is a configuration with all six fields equal |
| `Configs.Builder.constructor` | src/main/java/com/onetag/plugins/model/InvokeStepFunctionConfig.java:110-119 | A fresh builder has empty key, secret and region, no ARN, no payload and a 30 s poll interval |
| `Configs.Builder.Build` | src/main/java/com/onetag/plugins/model/InvokeStepFunctionConfig.java:161-163 | The built configuration's six fields equal the builder's current fields |
| `Configs.Builder.FromPrototype` | src/main/java/com/onetag/plugins/model/InvokeStepFunctionConfig.java:121-129 | Returns the same builder, which now builds exactly the prototype |
| `Configs.Builder.SetAwsAccessKeyId` | src/main/java/com/onetag/plugins/model/InvokeStepFunctionConfig.java:131-134 | Sets only the access key (frame is that field) and returns the same builder |
| `Configs.Builder.SetAwsSecretKey` | src/main/java/com/onetag/plugins/model/InvokeStepFunctionConfig.java:136-139 | Sets only the secret key and returns the same builder |
| `Configs.Builder.SetAwsRegion` | src/main/java/com/onetag/plugins/model/InvokeStepFunctionConfig.java:141-144 | Sets only the region and returns the same builder |
| `Configs.Builder.SetStateMachineArn` | src/main/java/com/onetag/plugins/model/InvokeStepFunctionConfig.java:146-149 | Sets only the state-machine ARN and returns the same builder |
| `Configs.Builder.SetPollInterval` | src/main/java/com/onetag/plugins/model/InvokeStepFunctionConfig.java:151-154 | Sets only the poll interval and returns the same builder |
| `Configs.Builder.SetPayload` | src/main/java/com/onetag/plugins/model/InvokeStepFunctionConfig.java:156-159 | Sets only the payload and returns the same builder |
| `Configs.BuilderOf` | src/main/java/com/onetag/plugins/model/InvokeStepFunctionConfig.java:106-108 | A new builder that builds exactly the prototype |
| `Configs.DefaultConfig` | src/main/java/com/onetag/plugins/model/InvokeStepFunctionConfig.java:17 | `builder().build()` is {"", "", "", no ARN, 30 s, no payload} |
| `Configs.Rebuild` | src/main/java/com/onetag/plugins/model/InvokeStepFunctionConfig.java:121-129 | `builder(p).build()` equals p |
| `Configs.RebuildWithStateMachineArn` | src/main/java/com/onetag/plugins/model/InvokeStepFunctionConfig.java:146-149 | `builder(p).stateMachineArn(a).build()` differs from p in the ARN alone |
| `Configs.RebuildWithPollInterval` | src/main/java/com/onetag/plugins/model/InvokeStepFunctionConfig.java:151-154 | `builder(p).pollInterval(d).build()` differs from p in the poll interval alone |
| `Results.InvokeStepFunctionResult.Equals` | src/main/java/com/onetag/plugins/model/InvokeStepFunctionResult.java:47-55 | True iff the other object is a result with equal success flag, output and execution ARN |
| `Results.Builder.constructor` | src/main/java/com/onetag/plugins/model/InvokeStepFunctionResult.java:79-85 | A fresh builder has no output, no execution ARN and success false |
| `Results.Builder.Build` | src/main/java/com/onetag/plugins/model/InvokeStepFunctionResult.java:109-111 | The built result's three fields equal the builder's current fields |
| `Results.Builder.FromPrototype` | src/main/java/com/onetag/plugins/model/InvokeStepFunctionResult.java:87-92 | Returns the same builder, which now builds exactly the prototype |
| `Results.Builder.SetOutput` | src/main/java/com/onetag/plugins/model/InvokeStepFunctionResult.java:94-97 | Sets only the output and returns the same builder |
| `Results.Builder.SetExecutionArn` | src/main/java/com/onetag/plugins/model/InvokeStepFunctionResult.java:99-102 | Sets only the execution ARN and returns the same builder |
| `Results.Builder.SetSuccess` | src/main/java/com/onetag/plugins/model/InvokeStepFunctionResult.java:104-107 | Sets only the success flag and returns the same builder |
| `Results.BuilderOf` | src/main/java/com/onetag/plugins/model/InvokeStepFunctionResult.java:75-77 | A new builder that builds exactly the prototype |
| `Results.DefaultResult` | src/main/java/com/onetag/plugins/model/InvokeStepFunctionResult.java:79-83 | `builder().build()` is {no output, no ARN, false} |
| `Results.Rebuild` | src/main/java/com/onetag/plugins/model/InvokeStepFunctionResult.java:87-92 | `builder(p).build()` equals p |
| `Results.RebuildWithSuccess` | src/main/java/com/onetag/plugins/model/InvokeStepFunctionResult.java:104-107 | `builder(p).success(s).build()` differs from p in the success flag alone |
| `InvokeBuilder.InvokeStepFunctionBuilder.constructor` | src/main/java/com/onetag/plugins/tasks/InvokeStepFunctionBuilder.java:53-65 | A fresh `ThreadSleeper` that rejects negative durations; null access key, secret and region become `""`; ARN, poll-interval text and payload are stored as given |
| `InvokeBuilder.InvokeStepFunctionBuilder.BuildConfig` | src/main/java/com/onetag/plugins/tasks/InvokeStepFunctionBuilder.java:80-92 | Fails iff the raw poll-interval template is non-empty and its expansion is not a decimal long; otherwise the five string fields are the expansions of their templates and the interval is the default or the parsed seconds |
| `InvokeBuilder.InvokeStepFunctionBuilder.ClientSettingsFor` | src/main/java/com/onetag/plugins/tasks/InvokeStepFunctionBuilder.java:95-105 | The client uses the configured region; default provider chain iff instance credentials are on, else static credentials from the config's key and secret |
| `InvokeBuilder.InvokeStepFunctionBuilder.Perform` | src/main/java/com/onetag/plugins/tasks/InvokeStepFunctionBuilder.java:67-74 | A bad poll interval fails before any request, log line or sleep; otherwise one start request with the expanded ARN and payload; the answer exists iff start succeeds and polling completes with the step's `ThreadSleeper` (no sleep needed, or the interval's milliseconds fit in a long and are not negative), and is exactly whether the final status is `SUCCEEDED` |
| `InvokeBuilder.PollIntervalFor` | src/main/java/com/onetag/plugins/tasks/InvokeStepFunctionBuilder.java:87-89 | A null or empty raw template keeps the 30 s default; otherwise the expanded template's `Long.valueOf` value in seconds, or failure where it throws |
| `InvokeBuilder.PollIntervalOfDecimal` | src/main/java/com/onetag/plugins/tasks/InvokeStepFunctionBuilder.java:87-89 | A template that is the decimal text of a long n sets the interval to n seconds |
| `InvokeBuilder.PollIntervalFailsOnEmptyExpansion` | src/main/java/com/onetag/plugins/tasks/InvokeStepFunctionBuilder.java:87 | The emptiness test is on the raw template: `$NAME` bound to `""` makes the configuration fail |
| `InvokeBuilderScenarios.BuildConfigNoVariables` | src/test/java/com/onetag/plugins/tasks/InvokeStepFunctionBuilderTest.java:78-81 | No variables and placeholder-free templates give {"", "", "", ARN, 10 s, payload} |
| `InvokeBuilderScenarios.BuildConfigFromPlaceholders` | src/test/java/com/onetag/plugins/tasks/InvokeStepFunctionBuilderTest.java:83-104 | For any bound names: `${NAME}` templates give their values, `$NAME` bound to the text of n gives n seconds, and a payload with one `${NAME}` gets the value spliced in |
| `InvokeBuilderScenarios.BuildConfigVariables` | src/test/java/com/onetag/plugins/tasks/InvokeStepFunctionBuilderTest.java:83-104 | The test's variables give the test's expected configuration, with a 10 s interval |
| `InvokeBuilderScenarios.AbcIsNoInterval` | src/main/java/com/onetag/plugins/tasks/InvokeStepFunctionBuilder.java:88 | `"abc"` is not a poll interval: the configuration fails |
| `InvokeBuilderScenarios.InvalidPollInterval` | src/main/java/com/onetag/plugins/tasks/InvokeStepFunctionBuilder.java:69 | With interval `"abc"` the step fails with no start and no describe call |
| `InvokeBuilderScenarios.PerformOutcome` | src/test/java/com/onetag/plugins/tasks/InvokeStepFunctionBuilderTest.java:65-76 | An execution that ends at once passes the step iff its status is `SUCCEEDED` |
| `InvokeBuilderScenarios.NegativeIntervalWhileRunning` | src/main/java/com/onetag/plugins/tasks/InvokeStepFunctionBuilder.java:88 | Interval `"-5"` with a `RUNNING` execution: the step's `ThreadSleeper` throws, so the step fails |
| `InvokeBuilderScenarios.NegativeIntervalAlreadyDone` | src/main/java/com/onetag/plugins/tasks/InvokeStepFunctionBuilder.java:88 | Interval `"-5"` with an execution already `SUCCEEDED`: no sleep is needed and the step passes |
| `Macro.ReplaceMacroNullable` | src/main/java/com/onetag/plugins/tasks/InvokeStepFunctionBuilder.java:85-86 | Expanding a null template gives null, a non-null one a non-null string |
| `Macro.ReplaceMacro` | src/test/java/com/onetag/plugins/tasks/InvokeStepFunctionBuilderTest.java:78-81 | With no variables every template comes out unchanged: unknown placeholders survive (the placeholder lemmas below give the rest) |
| `Macro.ReplaceMacroLiteralPrefix` | src/main/java/com/onetag/plugins/tasks/InvokeStepFunctionBuilder.java:82-86 | Text without `$` passes through expansion unchanged and does not change how the rest expands |
| `Macro.ReplaceMacroNoPlaceholder` | src/test/java/com/onetag/plugins/tasks/InvokeStepFunctionBuilderTest.java:78-81 | Placeholder-free text is unchanged by expansion |
| `Macro.BarePlaceholder` | src/test/java/com/onetag/plugins/tasks/InvokeStepFunctionBuilderTest.java:86 | `$NAME` stands for NAME's value, or for itself if unknown |
| `Macro.BracedPlaceholder` | src/test/java/com/onetag/plugins/tasks/InvokeStepFunctionBuilderTest.java:85-86 | `${NAME}` stands for NAME's value, or for itself if unknown |
| `Macro.OneBracedPlaceholder` | src/test/java/com/onetag/plugins/tasks/InvokeStepFunctionBuilderTest.java:86 | Plain text around one known `${NAME}` gives the text around the value |
| `JavaLang.ParseLong` | src/main/java/com/onetag/plugins/tasks/InvokeStepFunctionBuilder.java:88 | Accepted text is non-empty, starts with a digit or with a sign followed by more, and has only digits after its first character; text starting with `-` gives a non-positive value |
| `JavaLang.ParseLongOf` | src/main/java/com/onetag/plugins/tasks/InvokeStepFunctionBuilder.java:88 | For every sign (`""`, `+`, `-`) and non-empty digit run, the result is the signed value of the digits if it fits in a long, and failure otherwise |
| `JavaLang.ParseLongExamples` | src/main/java/com/onetag/plugins/tasks/InvokeStepFunctionBuilder.java:88 | `"+10"` and `"010"` give 10, `"-0"` gives 0; `"1a"`, `" 1"` and `"-"` are rejected |
| `JavaLang.ParseFormatRoundTrip` | src/main/java/com/onetag/plugins/tasks/InvokeStepFunctionBuilder.java:88 | `Long.valueOf(Long.toString(n)) == n` for every long n |
| `JavaLang.FormatLong` | src/main/java/com/onetag/plugins/tasks/InvokeStepFunctionBuilder.java:88 | `Long.toString(n)`: a leading `-` exactly when n is negative, then the digits of the magnitude with no leading zero (unless it is `0`) |
| `JavaLang.Duration.ToMillis` | src/main/java/com/onetag/plugins/tasks/InvokeStepFunctionService.java:76 | Defined iff seconds×1000 fits in a long, and then equal to it |
| `JavaRegex.Replacement` | src/main/java/com/onetag/plugins/TriggerStepFunctionBuilder.java:92 | A replacement value without `\` and `$` is inserted as it is |
| `JavaRegex.EscapedChar` | src/main/java/com/onetag/plugins/TriggerStepFunctionBuilder.java:92 | `\c` in a replacement is the character c, for every c (so `\$` is a literal dollar sign) |
| `JavaRegex.GroupZero` | src/main/java/com/onetag/plugins/TriggerStepFunctionBuilder.java:92 | `$0`, followed by any number of further zeros, is the matched text |
| `JavaRegex.MalformedReplacements` | src/main/java/com/onetag/plugins/TriggerStepFunctionBuilder.java:92 | A lone `$`, a group-1 reference and a named reference are rejected |
| `JavaRegex.KeyMatchAt` | src/main/java/com/onetag/plugins/TriggerStepFunctionBuilder.java:92 | The match of `\$\{?KEY\}?` at the head of s: with `{` when `${KEY` follows, else `$KEY`, each followed by an optional `}`; none iff neither follows |
| `JavaRegex.ReplaceAllKey` | src/main/java/com/onetag/plugins/TriggerStepFunctionBuilder.java:92 | `replaceAll` with a literal value never throws |
| `JavaRegex.ReplaceAllKeyLiteralPrefix` | src/main/java/com/onetag/plugins/TriggerStepFunctionBuilder.java:92 | Text without `$` passes through replaceAll unchanged |
| `JavaRegex.ReplaceAllKeyWithoutDollar` | src/main/java/com/onetag/plugins/TriggerStepFunctionBuilder.java:92 | A string without `$` is left as it is for every key and value |
| `JavaRegex.ReplaceAllKeyAtMatch` | src/main/java/com/onetag/plugins/TriggerStepFunctionBuilder.java:92 | A match at the head is replaced by the literal value and the scan resumes after it |
| `JavaRegex.BareKey` | src/main/java/com/onetag/plugins/TriggerStepFunctionBuilder.java:92 | `$KEY` becomes the value |
| `JavaRegex.BareKeyWithBrace` | src/main/java/com/onetag/plugins/TriggerStepFunctionBuilder.java:92 | `$KEY}` becomes the value too (the closing brace is optional on its own) |
| `JavaRegex.BracedKey` | src/main/java/com/onetag/plugins/TriggerStepFunctionBuilder.java:92 | `${KEY}` becomes the value |
| `JavaRegex.TrailingBareKey` | src/main/java/com/onetag/plugins/TriggerStepFunctionBuilder.java:92 | `$KEY` at the end becomes the value |
| `JavaRegex.BracedThenBareKey` | src/main/java/com/onetag/plugins/TriggerStepFunctionBuilder.java:92 | Two occurrences, braced then bare, both become the value |
| `JavaRegex.EveryOccurrence` | src/main/java/com/onetag/plugins/TriggerStepFunctionBuilder.java:92 | Every occurrence is replaced, with the literal text around them kept |
| `JavaRegex.MalformedReplacementFails` | src/main/java/com/onetag/plugins/TriggerStepFunctionBuilder.java:92 | A malformed replacement makes replaceAll throw once the key occurs |
| `TriggerBuilder.SleepMillis` | src/main/java/com/onetag/plugins/TriggerStepFunctionBuilder.java:102 | 30000 ms for an interval of 0, otherwise seconds×1000 modulo 2^64 (exactly seconds×1000 when it fits) |
| `TriggerBuilder.SleepMillisAgreesWithDuration` | src/main/java/com/onetag/plugins/TriggerStepFunctionBuilder.java:102 | Away from 0 and overflow the legacy rule and `Duration.toMillis` agree |
| `TriggerBuilder.OverflowingIntervalSleepsNegative` | src/main/java/com/onetag/plugins/TriggerStepFunctionBuilder.java:102 | An interval too long for a long number of milliseconds wraps round to a negative sleep |
| `TriggerBuilder.ApplyEntries` | src/main/java/com/onetag/plugins/TriggerStepFunctionBuilder.java:90-93 | No entries return the pattern itself; when every value is literal, interpolation never throws |
| `TriggerBuilder.ApplyEntriesFailurePersists` | src/main/java/com/onetag/plugins/TriggerStepFunctionBuilder.java:90-93 | Once one replaceAll has thrown, interpolation of all entries fails |
| `TriggerBuilder.ApplyEntriesWithoutDollar` | src/main/java/com/onetag/plugins/TriggerStepFunctionBuilder.java:89-95 | A pattern without `$` is unchanged whatever the variables |
| `TriggerBuilder.ApplyOneEntry` | src/main/java/com/onetag/plugins/TriggerStepFunctionBuilder.java:91-93 | With one variable, interpolation is that variable's replaceAll |
| `TriggerBuilder.InterpolationDependsOnOrder` | src/main/java/com/onetag/plugins/TriggerStepFunctionBuilder.java:91-93 | `$AB` with A=1, AB=2 gives `1B` in one order and `2` in the other |
| `TriggerBuilder.PayloadInterpolates` | src/main/java/com/onetag/plugins/TriggerStepFunctionBuilder.java:89-95 | `$PAYLOAD` and `${PAYLOAD}` both become PAYLOAD's value |
| `TriggerBuilder.DollarValueFails` | src/main/java/com/onetag/plugins/TriggerStepFunctionBuilder.java:92 | A value `$` makes interpolation throw once its key occurs |
| `TriggerBuilder.SplitName` | src/main/java/com/onetag/plugins/TriggerStepFunctionBuilder.java:37 | A split of the text into name and closing group that concatenates back and satisfies the name/close grammar |
| `TriggerBuilder.MatchBuildVariable` | src/main/java/com/onetag/plugins/TriggerStepFunctionBuilder.java:37 | A match splits s into the three groups of the regex's language; the `$` opening is chosen only when `${` cannot match |
| `TriggerBuilder.MatchesEveryBuildVariable` | src/main/java/com/onetag/plugins/TriggerStepFunctionBuilder.java:37 | Every string of the regex's language is matched |
| `TriggerBuilder.BareBuildVariable` | src/main/java/com/onetag/plugins/TriggerStepFunctionBuilder.java:37 | `$NAME` gives NAME as the name group |
| `TriggerBuilder.BracedBuildVariable` | src/main/java/com/onetag/plugins/TriggerStepFunctionBuilder.java:37 | `${NAME}` gives NAME as the name group |
| `TriggerBuilder.PayloadVariableMatches` | src/test/java/com/onetag/plugins/TriggerStepFunctionBuilderTest.java:18-30 | `$PAYLOAD` and `${PAYLOAD}` both match with name group `PAYLOAD` |
| `TriggerBuilder.TriggerStepFunctionBuilder.constructor` | src/main/java/com/onetag/plugins/TriggerStepFunctionBuilder.java:46-57 | All seven settings are stored as given |
| `TriggerBuilder.TriggerStepFunctionBuilder.ClientSettingsFor` | src/main/java/com/onetag/plugins/TriggerStepFunctionBuilder.java:81-86 | Always static credentials from the configured key and secret, with the configured region; the instance-credentials flag is ignored |
| `TriggerBuilder.TriggerStepFunctionBuilder.InterpolateVariables` | src/main/java/com/onetag/plugins/TriggerStepFunctionBuilder.java:89-95 | Applies each entry once, in iteration order, to the previous result; an empty map returns the pattern |
| `TriggerBuilder.TriggerStepFunctionBuilder.StartExecution` | src/main/java/com/onetag/plugins/TriggerStepFunctionBuilder.java:111-117 | One start request with the given ARN and payload; answers the client's ARN |
| `TriggerBuilder.TriggerStepFunctionBuilder.AwaitCompletion` | src/main/java/com/onetag/plugins/TriggerStepFunctionBuilder.java:97-109 | Returns the first non-`RUNNING` response after k+1 describe calls on the execution ARN and k sleeps of `SleepMillis`, logging the status each time; a negative sleep fails as soon as a sleep is needed |
| `TriggerBuilder.TriggerStepFunctionBuilder.Perform` | src/main/java/com/onetag/plugins/TriggerStepFunctionBuilder.java:60-79 | Logs the variables, interpolates payload and ARN before starting with them, and passes iff the final status is exactly `SUCCEEDED`; full log order and describe/sleep traces stated |
| `TriggerBuilderScenarios.PerformWith` | src/main/java/com/onetag/plugins/TriggerStepFunctionBuilder.java:60-79 | With no variables, the step passes iff the script ends in `SUCCEEDED`, sleeping `SleepMillis` per `RUNNING` response |
| `TriggerBuilderScenarios.ZeroIntervalScenario` | src/main/java/com/onetag/plugins/TriggerStepFunctionBuilder.java:36 | An interval of 0 sleeps 30000 ms between polls |
| `TriggerBuilderScenarios.NegativeIntervalScenario` | src/main/java/com/onetag/plugins/TriggerStepFunctionBuilder.java:102 | A negative interval fails the step only once a sleep is needed |

## Left out

- The describe response's status is taken as always present, as the Step Functions API returns it. A null status would end the newer step's poll loop, log the two final lines and then throw a `NullPointerException` when the result is built; the legacy step would return false. `DescribeResult.status` is a plain string, so neither outcome is modelled.
- The AWS SDK: client construction, credential providers, request and response classes. The client is a scripted object. A transport error is a failed call that ends the invocation with no result.
- `hudson.Util.replaceMacro` is not part of this model's source. `Macro.ReplaceMacro` is a concrete model of it. It has no `$$` escape, and it does not cover resolvers that answer null for a known name.
- `Sleeper.java` and `ThreadSleeper.java`: real time and thread interruption. A sleep is a recorded duration with an arbitrary interruption flag, which both loops ignore.
- Exact log text is not modelled. This covers `Duration.toString`, `Map.toString` and the string formatting. Log lines are tagged events.
- Jenkins host glue is not modelled: descriptors, `configure`/`save`/`bindJSON`, `getDisplayName`, `getBuildVariables`/`getActions`, annotations, getters, `hashCode` and `toString`.
- `JavaLang.ParseLong` accepts ASCII digits only. `Long.valueOf` also accepts other Unicode decimal digits.
- `JavaRegex.KeyMatchAt` takes the variable name as literal text. A name holding regex metacharacters would be read as a regex by `replaceAll`.
- `TriggerBuilder.TriggerStepFunctionBuilder.Perform` models the legacy step's strings as non-null. A null payload or ARN would throw in `replaceAll` when there is at least one build variable. With no build variables, the start request would go out with null.
- `TriggerBuilder.TriggerStepFunctionBuilder.Perform` models the variable map's iteration order as the order of a sequence of entries.
- The poll loops have no bound of their own. A script that stays `RUNNING` until it runs out makes the model fail the invocation. The real program would go on polling.
- Cancellation: the sleeper's interruption is ignored, as in the code. No cancellation outcome is modelled.
