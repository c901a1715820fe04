# kiam-check, modelled in Dafny

kiam-check is a synthetic probe run by Kuberhealthy. Its job is to find out whether a pod in a cluster that uses KIAM can reach AWS with its IAM role. One run of the probe:

- reads three settings from the environment: `DEBUG`, `AWS_REGION` and `LAMBDA_COUNT`;
- waits 15 seconds;
- creates an AWS session;
- starts an interrupt listener and installs a deferred panic guard;
- lists every Lambda function in the region, 100 per page, following the `NextMarker` pagination marker;
- compares the number found with the expected count;
- reports success or failure to the Kuberhealthy collector, then exits. A run reports exactly once, unless a panic in `parseConfig` or `createAWSSession` ends it with no report and exit code 2. This holds provided panics come only from the `PanicSite` sites (see `Lifecycle.PanicSite` under "## Left out"), no interrupt signal arrives before the report (see `listenForInterrupts` under "## Left out"), and the listing API eventually ends the listing (`Lambda.Terminates`).

The project has five modules, one file each:

| file | module | models |
|---|---|---|
| `errors.dfy` | `Errors` | Go's error values as used here: plain `errors.New`/`fmt.Errorf` texts, `strconv.NumError`, `%w` wrapping, and how `Error()` renders each of them, including `strconv.Quote` for ASCII. |
| `strconv.dfy` | `Strconv` | `strconv.Atoi` on a 64-bit platform and `strconv.ParseBool`, with a reference definition of a decimal literal. It also has `%d` formatting and the round trip through it. |
| `check_config.dfy` | `Config` | `parseConfig` and `parseDebugSetting` as pure functions of the environment, given as a map. |
| `lambda.dfy` | `Lambda` | `listLambdas` as a method with the pagination loop, proved against the recursive enumeration `Enumerate`. It also has `runLambdaCheck`'s count policy. |
| `lifecycle.dfy` | `Lifecycle` | `main`, `handlePanic`, `reportSuccessAndExit` and `reportFailureAndExit` as a `Supervisor` class. Its fields are the event log and the exit status, and its methods are proved against the staged specification `Trace`. |

Everything the process cannot decide for itself is an input, bundled in a `World`:
- the environment;
- what session creation returns;
- the finite sequence of responses the listing API gives;
- the step where a panic is raised, if any;
- the collector's answer to the report.

The listing API is assumed to end the listing eventually (`Lambda.Terminates`): some response in the sequence is an error or a page without a marker.

A negative `LAMBDA_COUNT` is not rejected: `Atoi` accepts it and `parseConfig` stores it (checkConfig.go:44-48). Because the count of listed functions is never negative, its count check always fails (`Lambda.EvaluateCount`, `expected < 0 ==> r.Some?`). When the listing succeeds, the run reports the mismatch message. A session or listing error is reported first.

## Model

| member | source | states |
|---|---|---|
| `Strconv.Atoi` | cmd/kiam-check/checkConfig.go:44 | A result is always a 64-bit integer. Every error is a `NumError` from `"Atoi"` that carries the whole input text, sign included. |
| `Strconv.AtoiAccepts` | cmd/kiam-check/checkConfig.go:44 | `Atoi` succeeds exactly on an optionally signed, non-empty run of decimal digits whose value fits in 64 bits, and then returns that value. A well-formed literal out of range gives `ErrRange`. |
| `Strconv.AtoiShortInput` | cmd/kiam-check/checkConfig.go:44 | An input shorter than 19 characters can only fail with `ErrSyntax`. Go's fast path counts bytes, but fewer than 19 characters still means at most 18 digits. |
| `Strconv.AtoiFormatInt` | cmd/kiam-check/checkConfig.go:44 | `Atoi` reads back the `%d` text of every 64-bit integer. |
| `Strconv.ScanAllDigits` | cmd/kiam-check/checkConfig.go:44 | The unsigned digit scan returns the positional decimal value of the digits, or overflow when that value passes 2^64 - 1. |
| `Strconv.ScanRejects` | cmd/kiam-check/checkConfig.go:44 | The unsigned digit scan never accepts a text containing a non-digit. |
| `Strconv.FormatNatValue` | cmd/kiam-check/lambda.go:70 | The `%d` text of a natural number is a digit string whose decimal value is that number. |
| `Strconv.ParseBool` | cmd/kiam-check/checkConfig.go:69 | The result is `true` exactly on the six true spellings and `false` exactly on the six false spellings. Anything else is a `NumError` from `"ParseBool"` with `ErrSyntax`. |
| `Errors.Quote` | cmd/kiam-check/main.go:104-105 | The quoted text starts and ends with a double quote and decodes back to exactly the input, so the input can be read from an `Atoi` or `ParseBool` error message. |
| `Errors.NumErrorMessage` | cmd/kiam-check/main.go:104-105 | This is the `NumError` case of `Errors.Message`, the `err.Error()` text that is logged and reported. The text starts with `strconv.<fn>: parsing ` and ends with `: invalid syntax` or `: value out of range`, and the quoted part between them decodes back to the rejected input. |
| `Config.ParseDebugSetting` | cmd/kiam-check/checkConfig.go:62-77 | DEBUG is on exactly for a true spelling. It is off when unset, empty or a false spelling. Any other value is the ParseBool error wrapped in the DEBUG context. |
| `Config.ParseConfig` | cmd/kiam-check/checkConfig.go:25-59 | A DEBUG error wins. The region is `AWS_REGION` when it is set and non-empty, else `us-west-2`, so it is never empty. The count is 0 when `LAMBDA_COUNT` is unset or empty, else the value `Atoi` gives. An `Atoi` error is wrapped in the LAMBDA_COUNT context. |
| `Config.ParseConfigAccepts` | cmd/kiam-check/checkConfig.go:25-59 | Resolution succeeds exactly when DEBUG is empty or a boolean spelling and LAMBDA_COUNT is empty or an in-range decimal literal. On success the expected count is that literal's value. |
| `Config.ParseConfigErrors` | cmd/kiam-check/checkConfig.go:25-48 | A bad DEBUG gives the DEBUG error whatever LAMBDA_COUNT holds. With a good DEBUG, a bad LAMBDA_COUNT gives a wrapped `Atoi` error that quotes the variable's value. |
| `Config.ParseConfigCountRoundTrip` | cmd/kiam-check/checkConfig.go:42-50 | Setting LAMBDA_COUNT to the decimal text of any 64-bit integer makes that integer the expected count. |
| `Lambda.ListLambdas` | cmd/kiam-check/lambda.go:20-56 | The loop returns exactly the functions, the error and the request sequence of `Enumerate`. |
| `Lambda.EnumerateRequests` | cmd/kiam-check/lambda.go:26-48 | The first request has no marker. Every request asks for 100 items. Every later request carries the marker of the page before it. The listing stops at the first error or the first page without a marker, and never makes more requests than there are responses. |
| `Lambda.EnumerateCollects` | cmd/kiam-check/lambda.go:22-55 | The functions returned are the pages' functions in order; their number is the sum of the page sizes. The error is the failing response's error, or none. |
| `Lambda.EnumerateSucceeds` | cmd/kiam-check/lambda.go:20-56 | The listing succeeds exactly when every response it consumed is a page. |
| `Lambda.EvaluateCount` | cmd/kiam-check/lambda.go:67-81 | With a non-zero expected count the check passes exactly when the count found equals it, and otherwise fails with the mismatch message. With zero it passes exactly when something was found, and otherwise fails with "could not find any Lambdas". A negative expected count always fails. |
| `Lambda.MismatchMessageStatesCounts` | cmd/kiam-check/lambda.go:70 | Both counts can be read back from the mismatch message with `Atoi`. |
| `Lambda.CheckResultSpec` | cmd/kiam-check/lambda.go:59-82 | A listing error is returned unchanged. Otherwise the check passes exactly when the count policy holds for the total size of the pages listed. |
| `Lambda.RunLambdaCheck` | cmd/kiam-check/lambda.go:59-82 | It issues the enumeration's requests and returns `CheckResult`'s verdict. |
| `Lifecycle.ReportedExactlyOnce` | cmd/kiam-check/main.go:15-112 | With panics raised only at the sites of `PanicSite`, and no interrupt signal arriving before the report (see `listenForInterrupts` under "## Left out"), every run reports exactly once, unless a panic is raised before the guard is installed; such a run ends with no report and exit code 2. The report is the last event, except for the fatal log line when the collector refuses it. A failure report carries one message. The exit code is 0 when the collector accepts the report and 1 when it refuses it. |
| `Lifecycle.ConfigErrorReported` | cmd/kiam-check/main.go:17-21 | A configuration error is reported as it is, with no sleep, session or listing before it. |
| `Lifecycle.SessionProblemsReported` | cmd/kiam-check/main.go:26-38 | Both a session error, wrapped in its context, and a nil session are reported after the warm-up. Neither builds a client or lists anything. |
| `Lifecycle.CheckOutcomeReported` | cmd/kiam-check/main.go:40-59 | Without problems or panics the run builds the client for the configured region and issues the enumeration's requests. It then reports success exactly when the check passes, and otherwise the check's error under its context. |
| `Lifecycle.PanicsReported` | cmd/kiam-check/main.go:45-87 | A panic in building the client or in the check, once a configuration and a session exist, makes the run report exactly once, and that report is the failure `panic: <value>`. A panic in parsing the configuration, whatever the environment holds, or in creating the session ends the run with that panic, no report and exit code 2. |
| `Lifecycle.SuccessReportedIff` | cmd/kiam-check/main.go:51-59 | Success is reported exactly when there was no panic, a valid configuration, a session and a passing check. |
| `Lifecycle.Supervisor.Run` | cmd/kiam-check/main.go:15-45 | The log grows by exactly the events of `Trace`, and the process exits with `Trace`'s exit code. |
| `Lifecycle.Supervisor.RunGuarded` | cmd/kiam-check/main.go:45-59 | The same for the guarded part of `main`, against `GuardedTrace`. |
| `Lifecycle.Supervisor.HandlePanic` | cmd/kiam-check/main.go:77-87 | Without a panic nothing changes. A recovered value is reported as one failure, `panic: <value>`, and the process exits. |
| `Lifecycle.Supervisor.ReportSuccessAndExit` | cmd/kiam-check/main.go:90-99 | Appends one success report. The process exits 0, or logs the fatal line and exits 1 if the collector refuses the report. |
| `Lifecycle.Supervisor.Close` | cmd/kiam-check/main.go:93-98 | After a report, the process exits 0 when the collector accepted it. Otherwise it appends the fatal line `error reporting to kuberhealthy: <error>` and exits 1, as `log.Fatalln` does (also main.go:106-111). |
| `Lifecycle.Supervisor.Crash` | cmd/kiam-check/main.go:15-38 | A panic outside the guard, in parsing the configuration or creating the session, appends only the panic and ends the process with exit code 2, the Go runtime's status for an unrecovered panic. |
| `Lifecycle.Supervisor.ReportFailureAndExit` | cmd/kiam-check/main.go:102-112 | Appends one failure report carrying the error's text. The process then exits 0, or logs the fatal line and exits 1 as above. |

## Left out

- `createAWSSession` (awsSession.go is not part of this model beyond its result): the AWS SDK is foreign code. Its outcome (a session, an error, or nil) is an input.
- `createLambdaClient`: the SDK client is foreign code. Building it is one event that records the region.
- `listenForInterrupts`: signal delivery is concurrent with the run, so interrupts are not modelled. Starting the listener is one event. A SIGINT or SIGTERM after the listener starts (main.go:41-42) makes it call `os.Exit(0)` with no report (main.go:63-73). A signal before that, for example during the warm-up sleep, ends the process through Go's default handling, also with no report. The exactly-once lemmas hold only for runs with no such signal.
- `time.Sleep`: clocks are not modelled. The warm-up is one event carrying its 15 seconds.
- `applyDebugSettings` and all logrus output except `log.Fatalln`: they affect only logging, so only the parsed `debug` flag is kept.
- `checkclient.ReportSuccess` / `ReportFailure`: they are network calls. Each is an event, and the collector's answer is an input.
- `os.Exit`, `recover` and the Go runtime's handling of an unrecovered panic: they are modelled as the terminal `Status` and the `Crashed` event. Deferred calls that `os.Exit` skips are not modelled further.
- `lambda.FunctionConfiguration`: only its ARN is kept, because the check uses nothing but the number of functions.
- `Lambda.ListLambdas`: it requires that the API sequence eventually ends the listing. An API that hands out markers forever is outside the model.
- `Lifecycle.Supervisor.Run`: the same termination assumption as `ListLambdas` applies.
- `Lifecycle.PanicsReported`: a panic inside `runLambdaCheck` is modelled as raised before its first request. A panic midway through the pagination would add only `Requested` events before the same report.
- `Lifecycle.PanicSite`: panics are modelled only in `parseConfig`, `createAWSSession`, `createLambdaClient` and `runLambdaCheck`. A panic in `applyDebugSettings` (before the guard) would crash like one in `parseConfig`. A panic in the listener goroutine is left out. A panic inside `checkclient.ReportSuccess` or `ReportFailure` under the guard (main.go:53, 59) is also left out: `handlePanic` would recover it and call `reportFailureAndExit` again (main.go:86). Such a run can report twice, so the exactly-once lemmas do not cover it.
- `Errors.Unquote`: it decodes only the escapes `Errors.Quote` writes and is not `strconv.Unquote`. It is there only to state that quoting loses nothing.
- `Errors.Quote`: the escaping follows `strconv.Quote` for ASCII. Any character above U+007F is treated as printable, and Go's Unicode printability tables are not modelled.
- `Strconv.Atoi`: it models Go's `int` as 64 bits. On a 32-bit platform the range would be narrower.
