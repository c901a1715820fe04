/**
 * The lifecycle supervisor (`main`): resolve the configuration, wait, obtain
 * an AWS session, start the interrupt listener, install the panic guard, build
 * the Lambda client, run the check, and report the outcome to the health
 * collector exactly once before the process exits.
 *
 * Everything the process cannot decide itself is an input, bundled in a
 * `World`: the environment, what session creation gives back, the listing
 * API's responses, where (if anywhere) a panic is raised, and what the
 * collector answers to the report.  The process's observable behaviour is the
 * sequence of `Event`s it produces and the exit code it ends with.
 */
module Lifecycle {
  import opened Errors
  import opened Config
  import opened Lambda

  /** The warm-up delay before any AWS call, in seconds. */
  const WarmupSeconds := 15

  const SessionErrorContext := "failed to create AWS session"
  const NilSessionMessage := "nil AWS session"
  const CheckErrorContext := "error occurred during Lambda check"
  const ReporterErrorPrefix := "error reporting to kuberhealthy: "

  /** What `createAWSSession` gives back. */
  datatype SessionOutcome = SessionCreated | SessionFailed(error: Error) | SessionNil

  /**
   * The step a panic is raised in; only the last two run under the deferred
   * guard.  Panics in `applyDebugSettings`, the listener goroutine and the
   * collector calls are not among them.
   */
  datatype PanicSite = InParseConfig | InCreateSession | InCreateLambdaClient | InRunLambdaCheck

  /** A panic with the text `%v` gives for its value. */
  datatype Panic = Panic(site: PanicSite, value: string)

  datatype World = World(
    env: map<string, string>,
    session: SessionOutcome,
    api: seq<Response>,
    panic: Option<Panic>,
    sink: Option<Error>)   // the collector's answer: None accepts the report

  datatype Event =
    | Slept(seconds: nat)
    | SessionRequested
    | InterruptListenerStarted
    | PanicGuardInstalled
    | LambdaClientCreated(region: string)
    | Requested(input: ListFunctionsInput)
    | ReportedSuccess                        // checkclient.ReportSuccess
    | ReportedFailure(messages: seq<string>) // checkclient.ReportFailure
    | FatalLogged(message: string)           // log.Fatalln, which exits with status 1
    | Crashed(panicValue: string)            // a panic nothing recovers: the runtime exits with status 2

  datatype Status = Running | Exited(code: int)

  /** A run's observable behaviour. */
  datatype Outcome = Outcome(events: seq<Event>, exitCode: int)

  predicate IsReport(e: Event) {
    e.ReportedSuccess? || e.ReportedFailure?
  }

  function ReportCount(events: seq<Event>): nat {
    if events == [] then 0 else (if IsReport(events[0]) then 1 else 0) + ReportCount(events[1..])
  }

  function RequestEvents(requests: seq<ListFunctionsInput>): (r: seq<Event>)
    ensures |r| == |requests|
    ensures forall i :: 0 <= i < |r| ==> r[i] == Requested(requests[i])
  {
    if requests == [] then [] else [Requested(requests[0])] + RequestEvents(requests[1..])
  }

  /** What follows a report: nothing if the collector took it, else the fatal log line. */
  function Closing(sink: Option<Error>): seq<Event> {
    match sink
    case None => []
    case Some(e) => [FatalLogged(ReporterErrorPrefix + Message(e))]
  }

  function ClosingCode(sink: Option<Error>): int {
    if sink.None? then 0 else 1
  }

  /** `reportFailureAndExit(err)`: one failure report whose only message is the error's text. */
  function FailureExit(err: Error, sink: Option<Error>): Outcome {
    Outcome([ReportedFailure([Message(err)])] + Closing(sink), ClosingCode(sink))
  }

  /** `reportSuccessAndExit()`. */
  function SuccessExit(sink: Option<Error>): Outcome {
    Outcome([ReportedSuccess] + Closing(sink), ClosingCode(sink))
  }

  function After(done: seq<Event>, o: Outcome): Outcome {
    Outcome(done + o.events, o.exitCode)
  }

  predicate PanicsAt(w: World, site: PanicSite) {
    w.panic.Some? && w.panic.value.site == site
  }

  /** `fmt.Errorf("panic: %v", recovered)`. */
  function PanicError(value: string): Error {
    Plain("panic: " + value)
  }

  /** The events before the session is checked: the warm-up sleep, then `createAWSSession`. */
  const Started: seq<Event> := [Slept(WarmupSeconds), SessionRequested]
  /** The events between a good session and the Lambda client. */
  const Guarding: seq<Event> := [InterruptListenerStarted, PanicGuardInstalled]

  /** The run `main` performs in a world, step by step. */
  function Trace(w: World): Outcome
    requires Terminates(w.api)
  {
    if PanicsAt(w, InParseConfig) then Outcome([Crashed(w.panic.value.value)], 2)
    else match ParseConfig(w.env)
    case Err(e) => FailureExit(e, w.sink)
    case Ok(cfg) => After(Started, SessionTrace(w, cfg))
  }

  /** The run once the session has been asked for. */
  function SessionTrace(w: World, cfg: CheckConfig): Outcome
    requires Terminates(w.api)
  {
    if PanicsAt(w, InCreateSession) then Outcome([Crashed(w.panic.value.value)], 2)
    else match w.session
    case SessionFailed(e) => FailureExit(Wrapped(SessionErrorContext, e), w.sink)
    case SessionNil => FailureExit(Plain(NilSessionMessage), w.sink)
    case SessionCreated => After(Guarding, GuardedTrace(w, cfg))
  }

  /** The run under the deferred panic guard: build the client, then check. */
  function GuardedTrace(w: World, cfg: CheckConfig): Outcome
    requires Terminates(w.api)
  {
    if PanicsAt(w, InCreateLambdaClient) then FailureExit(PanicError(w.panic.value.value), w.sink)
    else After([LambdaClientCreated(cfg.awsRegion)], CheckTrace(w, cfg))
  }

  /** `runLambdaCheck` and the report of its verdict. */
  function CheckTrace(w: World, cfg: CheckConfig): Outcome
    requires Terminates(w.api)
  {
    if PanicsAt(w, InRunLambdaCheck) then FailureExit(PanicError(w.panic.value.value), w.sink)
    else
      After(RequestEvents(Enumerate(w.api, None).requests),
        match CheckResult(cfg.expectedLambdaCount, w.api)
        case Some(e) => FailureExit(Wrapped(CheckErrorContext, e), w.sink)
        case None => SuccessExit(w.sink))
  }

  /** The runs in which a panic is raised before the guard is installed. */
  predicate CrashesUnguarded(w: World) {
    PanicsAt(w, InParseConfig) || (ParseConfig(w.env).Ok? && PanicsAt(w, InCreateSession))
  }

  predicate NoReportIn(events: seq<Event>) {
    forall i :: 0 <= i < |events| ==> !IsReport(events[i])
  }

  /**
   * A run that reports once: the report is its one report and its last event
   * but for the fatal log line if the collector refuses it, every failure
   * report carries one message, and the exit code follows the collector's
   * answer.
   */
  predicate ReportsOnce(o: Outcome, sink: Option<Error>) {
    var k := |o.events| - 1 - |Closing(sink)|;
    0 <= k && IsReport(o.events[k]) && o.events[k + 1..] == Closing(sink)
    && ReportCount(o.events) == 1
    && (forall i :: 0 <= i < |o.events| && o.events[i].ReportedFailure? ==> |o.events[i].messages| == 1)
    && o.exitCode == ClosingCode(sink)
  }

  /** A run that a panic ends without any report, exiting 2. */
  predicate CrashesSilently(o: Outcome) {
    |o.events| > 0 && o.events[|o.events| - 1].Crashed? && ReportCount(o.events) == 0 && o.exitCode == 2
  }

  lemma {:induction false} ReportCountAppend(a: seq<Event>, b: seq<Event>)
    ensures ReportCount(a + b) == ReportCount(a) + ReportCount(b)
  {
    if a == [] {
      assert a + b == b;
    } else {
      assert (a + b)[1..] == a[1..] + b;
      ReportCountAppend(a[1..], b);
    }
  }

  lemma {:induction false} NoReports(events: seq<Event>)
    requires NoReportIn(events)
    ensures ReportCount(events) == 0
  {
    if events != [] {
      assert NoReportIn(events[1..]) by {
        forall i | 0 <= i < |events[1..]| ensures !IsReport(events[1..][i]) {
          assert events[1..][i] == events[i + 1];
        }
      }
      NoReports(events[1..]);
    }
  }

  lemma ExitsReportOnce(err: Error, sink: Option<Error>)
    ensures ReportsOnce(FailureExit(err, sink), sink) && ReportsOnce(SuccessExit(sink), sink)
  {
    ReportThenClose(ReportedFailure([Message(err)]), sink);
    ReportThenClose(ReportedSuccess, sink);
  }

  /** One report followed by the closing step reports once. */
  lemma ReportThenClose(report: Event, sink: Option<Error>)
    requires IsReport(report) && (report.ReportedFailure? ==> |report.messages| == 1)
    ensures ReportsOnce(Outcome([report] + Closing(sink), ClosingCode(sink)), sink)
  {
    var events := [report] + Closing(sink);
    NoReports(Closing(sink));
    ReportCountAppend([report], Closing(sink));
    assert events[0] == report && events[1..] == Closing(sink);
    forall i | 0 < i < |events| ensures !events[i].ReportedFailure? {
      assert events[i] == Closing(sink)[i - 1];
    }
  }

  /** Events without a report before a run keep its report unique and last, and keep a crash silent. */
  lemma AfterQuiet(done: seq<Event>, o: Outcome, sink: Option<Error>)
    requires NoReportIn(done)
    ensures ReportsOnce(o, sink) ==> ReportsOnce(After(done, o), sink)
    ensures CrashesSilently(o) ==> CrashesSilently(After(done, o))
  {
    NoReports(done);
    ReportCountAppend(done, o.events);
    if ReportsOnce(o, sink) {
      AfterReportsOnce(done, o, sink);
    }
  }

  lemma AfterReportsOnce(done: seq<Event>, o: Outcome, sink: Option<Error>)
    requires NoReportIn(done) && ReportsOnce(o, sink)
    requires ReportCount(done + o.events) == ReportCount(o.events)
    ensures ReportsOnce(After(done, o), sink)
  {
    var events := done + o.events;
    var k := |o.events| - 1 - |Closing(sink)|;
    assert events[|done| + k] == o.events[k];
    assert events[|done| + k + 1..] == o.events[k + 1..];
    // The events before o's carry no report, so every failure report is one of o's.
    forall i | 0 <= i < |done| ensures !events[i].ReportedFailure? {
      assert events[i] == done[i] && !IsReport(done[i]);
    }
    forall i | |done| <= i < |events| ensures events[i] == o.events[i - |done|] {
    }
  }

  lemma CheckTraceShape(w: World, cfg: CheckConfig)
    requires Terminates(w.api)
    ensures ReportsOnce(CheckTrace(w, cfg), w.sink)
  {
    ExitsReportOnce(PanicError(""), w.sink);
    if PanicsAt(w, InRunLambdaCheck) {
      ExitsReportOnce(PanicError(w.panic.value.value), w.sink);
    } else {
      var requests := RequestEvents(Enumerate(w.api, None).requests);
      assert NoReportIn(requests);
      match CheckResult(cfg.expectedLambdaCount, w.api)
      case Some(e) =>
        ExitsReportOnce(Wrapped(CheckErrorContext, e), w.sink);
        AfterQuiet(requests, FailureExit(Wrapped(CheckErrorContext, e), w.sink), w.sink);
      case None =>
        AfterQuiet(requests, SuccessExit(w.sink), w.sink);
    }
  }

  lemma GuardedTraceShape(w: World, cfg: CheckConfig)
    requires Terminates(w.api)
    ensures ReportsOnce(GuardedTrace(w, cfg), w.sink)
  {
    if PanicsAt(w, InCreateLambdaClient) {
      ExitsReportOnce(PanicError(w.panic.value.value), w.sink);
    } else {
      CheckTraceShape(w, cfg);
      AfterQuiet([LambdaClientCreated(cfg.awsRegion)], CheckTrace(w, cfg), w.sink);
    }
  }

  lemma SessionTraceShape(w: World, cfg: CheckConfig)
    requires Terminates(w.api)
    ensures PanicsAt(w, InCreateSession) ==> CrashesSilently(SessionTrace(w, cfg))
    ensures !PanicsAt(w, InCreateSession) ==> ReportsOnce(SessionTrace(w, cfg), w.sink)
  {
    if !PanicsAt(w, InCreateSession) {
      match w.session
      case SessionFailed(e) => ExitsReportOnce(Wrapped(SessionErrorContext, e), w.sink);
      case SessionNil => ExitsReportOnce(Plain(NilSessionMessage), w.sink);
      case SessionCreated =>
        GuardedTraceShape(w, cfg);
        AfterQuiet(Guarding, GuardedTrace(w, cfg), w.sink);
    }
  }

  /**
   * Exactly-once reporting: every run reports once, unless a panic is raised
   * before the guard is installed, in which case the runtime ends it with no
   * report.  The report is the run's last action but for the fatal log line
   * when the collector refuses it, and a failure report carries one message;
   * the process exits 0 after a report the collector took, 1 after one it
   * refused, and 2 on a crash.
   */
  lemma ReportedExactlyOnce(w: World)
    requires Terminates(w.api)
    ensures CrashesUnguarded(w) ==> CrashesSilently(Trace(w))
    ensures !CrashesUnguarded(w) ==> ReportsOnce(Trace(w), w.sink)
  {
    if !PanicsAt(w, InParseConfig) {
      match ParseConfig(w.env)
      case Err(e) => ExitsReportOnce(e, w.sink);
      case Ok(cfg) =>
        SessionTraceShape(w, cfg);
        AfterQuiet(Started, SessionTrace(w, cfg), w.sink);
    }
  }

  /** A configuration error is reported as it is, before any sleep, session or check. */
  lemma ConfigErrorReported(w: World)
    requires Terminates(w.api)
    requires !PanicsAt(w, InParseConfig) && ParseConfig(w.env).Err?
    ensures Trace(w).events == [ReportedFailure([Message(ParseConfig(w.env).error)])] + Closing(w.sink)
  {
  }

  /** Session errors and a nil session are reported with their own wording; no client is built and nothing is listed. */
  lemma SessionProblemsReported(w: World)
    requires Terminates(w.api)
    requires !PanicsAt(w, InParseConfig) && !PanicsAt(w, InCreateSession) && ParseConfig(w.env).Ok?
    ensures w.session.SessionFailed? ==>
      Trace(w).events == Started + ([ReportedFailure([SessionErrorContext + ": " + Message(w.session.error)])] + Closing(w.sink))
    ensures w.session.SessionNil? ==>
      Trace(w).events == Started + ([ReportedFailure([NilSessionMessage])] + Closing(w.sink))
  {
  }

  /**
   * With a configuration, a session and no panic, the run issues the
   * enumeration's requests after building the client for the configured
   * region, and reports success exactly when the check passes, or else the
   * check's error under its context.
   */
  lemma CheckOutcomeReported(w: World)
    requires Terminates(w.api)
    requires w.panic.None? && ParseConfig(w.env).Ok? && w.session.SessionCreated?
    ensures var cfg := ParseConfig(w.env).value;
      var result := CheckResult(cfg.expectedLambdaCount, w.api);
      var report := if result.None? then ReportedSuccess
                    else ReportedFailure([CheckErrorContext + ": " + Message(result.value)]);
      Trace(w).events == Started + (Guarding + ([LambdaClientCreated(cfg.awsRegion)]
        + (RequestEvents(Enumerate(w.api, None).requests) + ([report] + Closing(w.sink)))))
  {
    var cfg := ParseConfig(w.env).value;
    var result := CheckResult(cfg.expectedLambdaCount, w.api);
    var requests := RequestEvents(Enumerate(w.api, None).requests);
    if result.Some? {
      assert CheckTrace(w, cfg).events
        == requests + ([ReportedFailure([CheckErrorContext + ": " + Message(result.value)])] + Closing(w.sink));
    }
    assert GuardedTrace(w, cfg).events == [LambdaClientCreated(cfg.awsRegion)] + CheckTrace(w, cfg).events;
    assert SessionTrace(w, cfg).events == Guarding + GuardedTrace(w, cfg).events;
  }

  /**
   * A panic under the guard becomes the run's one report, a failure carrying
   * `panic: <value>`; one raised before the guard crashes the run with that
   * value and no report.
   */
  lemma PanicsReported(w: World)
    requires Terminates(w.api) && w.panic.Some?
    ensures var v := w.panic.value.value; var o := Trace(w);
      CrashesUnguarded(w) ==> CrashesSilently(o) && o.events[|o.events| - 1] == Crashed(v)
    ensures var v := w.panic.value.value; var o := Trace(w);
      ParseConfig(w.env).Ok? && w.session.SessionCreated?
      && (w.panic.value.site.InCreateLambdaClient? || w.panic.value.site.InRunLambdaCheck?) ==>
        ReportsOnce(o, w.sink)
        && o.events[|o.events| - 1 - |Closing(w.sink)|] == ReportedFailure(["panic: " + v])
  {
    if CrashesUnguarded(w) {
      UnguardedPanicCrashes(w);
    }
    if ParseConfig(w.env).Ok? && w.session.SessionCreated?
       && (w.panic.value.site.InCreateLambdaClient? || w.panic.value.site.InRunLambdaCheck?) {
      GuardedPanicReported(w);
    }
  }

  lemma UnguardedPanicCrashes(w: World)
    requires Terminates(w.api) && CrashesUnguarded(w)
    ensures CrashesSilently(Trace(w)) && Trace(w).events[|Trace(w).events| - 1] == Crashed(w.panic.value.value)
  {
    ReportedExactlyOnce(w);
  }

  lemma GuardedPanicReported(w: World)
    requires Terminates(w.api) && w.panic.Some? && ParseConfig(w.env).Ok? && w.session.SessionCreated?
    requires w.panic.value.site.InCreateLambdaClient? || w.panic.value.site.InRunLambdaCheck?
    ensures var o := Trace(w);
      ReportsOnce(o, w.sink)
      && o.events[|o.events| - 1 - |Closing(w.sink)|] == ReportedFailure(["panic: " + w.panic.value.value])
  {
    ReportedExactlyOnce(w);
    var cfg := ParseConfig(w.env).value;
    var pre := GuardedPanicTrace(w, cfg);
    var tail := [ReportedFailure(["panic: " + w.panic.value.value])] + Closing(w.sink);
    LiftGuarded(Trace(w), SessionTrace(w, cfg), GuardedTrace(w, cfg), pre, tail);
    LastReport(Started + (Guarding + pre), tail[0], w.sink);
  }

  /** Under the guard, a panic leaves only the client event, if the client was built, before its report. */
  lemma GuardedPanicTrace(w: World, cfg: CheckConfig) returns (pre: seq<Event>)
    requires Terminates(w.api) && w.panic.Some?
    requires w.panic.value.site.InCreateLambdaClient? || w.panic.value.site.InRunLambdaCheck?
    ensures GuardedTrace(w, cfg).events == pre + ([ReportedFailure(["panic: " + w.panic.value.value])] + Closing(w.sink))
  {
    if w.panic.value.site.InCreateLambdaClient? {
      pre := [];
    } else {
      pre := [LambdaClientCreated(cfg.awsRegion)];
    }
  }

  lemma LiftGuarded(trace: Outcome, session: Outcome, guarded: Outcome, pre: seq<Event>, tail: seq<Event>)
    requires trace == After(Started, session) && session == After(Guarding, guarded)
    requires guarded.events == pre + tail
    ensures trace.events == (Started + (Guarding + pre)) + tail
  {
    AppendAssoc(Guarding, pre, tail);
    AppendAssoc(Started, Guarding + pre, tail);
  }

  lemma LastReport(pre: seq<Event>, report: Event, sink: Option<Error>)
    ensures var e := pre + ([report] + Closing(sink)); e[|e| - 1 - |Closing(sink)|] == report
  {
  }

  /** A failure exit holds no success report; a success exit does. */
  lemma ExitReports(err: Error, sink: Option<Error>)
    ensures ReportedSuccess !in FailureExit(err, sink).events
    ensures ReportedSuccess in SuccessExit(sink).events
  {
    assert SuccessExit(sink).events[0] == ReportedSuccess;
  }

  lemma CheckTraceSuccess(w: World, cfg: CheckConfig)
    requires Terminates(w.api)
    ensures ReportedSuccess in CheckTrace(w, cfg).events <==>
      !PanicsAt(w, InRunLambdaCheck) && CheckResult(cfg.expectedLambdaCount, w.api).None?
  {
    ExitReports(PanicError(""), w.sink);
    if PanicsAt(w, InRunLambdaCheck) {
      ExitReports(PanicError(w.panic.value.value), w.sink);
    } else {
      var requests := RequestEvents(Enumerate(w.api, None).requests);
      assert ReportedSuccess !in requests;
      match CheckResult(cfg.expectedLambdaCount, w.api)
      case Some(e) => ExitReports(Wrapped(CheckErrorContext, e), w.sink);
      case None =>
    }
  }

  lemma SessionTraceSuccess(w: World, cfg: CheckConfig)
    requires Terminates(w.api)
    ensures ReportedSuccess in SessionTrace(w, cfg).events <==>
      !PanicsAt(w, InCreateSession) && w.session.SessionCreated?
      && !PanicsAt(w, InCreateLambdaClient) && !PanicsAt(w, InRunLambdaCheck)
      && CheckResult(cfg.expectedLambdaCount, w.api).None?
  {
    if !PanicsAt(w, InCreateSession) {
      match w.session
      case SessionFailed(e) => ExitReports(Wrapped(SessionErrorContext, e), w.sink);
      case SessionNil => ExitReports(Plain(NilSessionMessage), w.sink);
      case SessionCreated =>
        if PanicsAt(w, InCreateLambdaClient) {
          ExitReports(PanicError(w.panic.value.value), w.sink);
        } else {
          CheckTraceSuccess(w, cfg);
        }
    }
  }

  /** Success is reported exactly when nothing failed or panicked and the check passed. */
  lemma SuccessReportedIff(w: World)
    requires Terminates(w.api)
    ensures ReportedSuccess in Trace(w).events <==>
      w.panic.None? && ParseConfig(w.env).Ok? && w.session.SessionCreated?
      && CheckResult(ParseConfig(w.env).value.expectedLambdaCount, w.api).None?
  {
    if !PanicsAt(w, InParseConfig) {
      match ParseConfig(w.env)
      case Err(e) => ExitReports(e, w.sink);
      case Ok(cfg) => SessionTraceSuccess(w, cfg);
    }
  }

  lemma AppendAssoc(a: seq<Event>, b: seq<Event>, c: seq<Event>)
    ensures (a + b) + c == a + (b + c)
  {
  }

  /** The process: its event log and whether it has exited. */
  class Supervisor {
    var events: seq<Event>
    var status: Status

    constructor ()
      ensures events == [] && status == Running
    {
      events := [];
      status := Running;
    }

    /** Ends the process after a report: exit 0, or the fatal log line and exit 1 if the collector refused it. */
    method Close(sink: Option<Error>)
      requires status == Running
      modifies this
      ensures events == old(events) + Closing(sink)
      ensures status == Exited(ClosingCode(sink))
    {
      if sink.Some? {
        events := events + [FatalLogged(ReporterErrorPrefix + Message(sink.value))];
        status := Exited(1);
      } else {
        status := Exited(0);
      }
    }

    /** `reportSuccessAndExit`. */
    method ReportSuccessAndExit(sink: Option<Error>)
      requires status == Running
      modifies this
      ensures events == old(events) + SuccessExit(sink).events
      ensures status == Exited(SuccessExit(sink).exitCode)
    {
      events := events + [ReportedSuccess];
      Close(sink);
    }

    /** `reportFailureAndExit`. */
    method ReportFailureAndExit(err: Error, sink: Option<Error>)
      requires status == Running
      modifies this
      ensures events == old(events) + FailureExit(err, sink).events
      ensures status == Exited(FailureExit(err, sink).exitCode)
    {
      events := events + [ReportedFailure([Message(err)])];
      Close(sink);
    }

    /** `handlePanic`, run by the deferred guard: nothing to do without a panic, else report it. */
    method HandlePanic(recovered: Option<string>, sink: Option<Error>)
      requires status == Running
      modifies this
      ensures recovered.None? ==> events == old(events) && status == Running
      ensures recovered.Some? ==>
        events == old(events) + FailureExit(PanicError(recovered.value), sink).events
        && status == Exited(ClosingCode(sink))
    {
      if recovered.None? {
        return;
      }
      ReportFailureAndExit(PanicError(recovered.value), sink);
    }

    /** A panic outside the guard: the runtime ends the process with status 2 and no report. */
    method Crash(value: string)
      requires status == Running
      modifies this
      ensures events == old(events) + [Crashed(value)] && status == Exited(2)
    {
      events := events + [Crashed(value)];
      status := Exited(2);
    }

    /** `main`. */
    method Run(w: World)
      requires status == Running && Terminates(w.api)
      modifies this
      ensures events == old(events) + Trace(w).events
      ensures status == Exited(Trace(w).exitCode)
    {
      if PanicsAt(w, InParseConfig) {
        Crash(w.panic.value.value);
        return;
      }
      var parsed := ParseConfig(w.env);
      if parsed.Err? {
        ReportFailureAndExit(parsed.error, w.sink);
        return;
      }
      var cfg := parsed.value;

      events := events + [Slept(WarmupSeconds)];
      events := events + [SessionRequested];
      ghost var started := events;
      assert started == old(events) + Started;
      if PanicsAt(w, InCreateSession) {
        Crash(w.panic.value.value);
        AppendAssoc(old(events), Started, SessionTrace(w, cfg).events);
        return;
      }
      if w.session.SessionFailed? {
        ReportFailureAndExit(Wrapped(SessionErrorContext, w.session.error), w.sink);
        AppendAssoc(old(events), Started, SessionTrace(w, cfg).events);
        return;
      }
      if w.session.SessionNil? {
        ReportFailureAndExit(Plain(NilSessionMessage), w.sink);
        AppendAssoc(old(events), Started, SessionTrace(w, cfg).events);
        return;
      }

      events := events + [InterruptListenerStarted];
      events := events + [PanicGuardInstalled];
      assert events == started + Guarding;
      AppendAssoc(started, Guarding, GuardedTrace(w, cfg).events);
      AppendAssoc(old(events), Started, SessionTrace(w, cfg).events);
      RunGuarded(w, cfg);
    }

    /** The rest of `main`, in the scope of `defer handlePanic()`: build the client, run the check, report. */
    method RunGuarded(w: World, cfg: CheckConfig)
      requires status == Running && Terminates(w.api)
      modifies this
      ensures events == old(events) + GuardedTrace(w, cfg).events
      ensures status == Exited(GuardedTrace(w, cfg).exitCode)
    {
      if PanicsAt(w, InCreateLambdaClient) {
        HandlePanic(Some(w.panic.value.value), w.sink);
        return;
      }
      events := events + [LambdaClientCreated(cfg.awsRegion)];
      ghost var created := events;
      AppendAssoc(old(events), [LambdaClientCreated(cfg.awsRegion)], CheckTrace(w, cfg).events);
      if PanicsAt(w, InRunLambdaCheck) {
        HandlePanic(Some(w.panic.value.value), w.sink);
        return;
      }

      var err, requests := RunLambdaCheck(cfg, w.api);
      events := events + RequestEvents(requests);
      if err.Some? {
        ReportFailureAndExit(Wrapped(CheckErrorContext, err.value), w.sink);
        AppendAssoc(created, RequestEvents(requests), FailureExit(Wrapped(CheckErrorContext, err.value), w.sink).events);
        return;
      }
      ReportSuccessAndExit(w.sink);
      AppendAssoc(created, RequestEvents(requests), SuccessExit(w.sink).events);
    }
  }
}
