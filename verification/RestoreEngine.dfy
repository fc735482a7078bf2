/**
 The phase executor (src/restore/RestoreEngine.ts). A handler's outcome is an input; so is what the rest of the
 program does to the job row and its channel while a handler is awaited, and whether a subscriber of the bus throws.
 */
module RestoreEngine {
  import opened Common
  import opened RestoreStore

  type EndStatus = s: PhaseStatus | s.PhaseCompleted? || s.PhaseCompletedWithErrors? || s.PhaseFailed?
    witness PhaseCompleted

  datatype PhaseResult = PhaseResult(
    status: EndStatus,
    processed: nat,
    total: nat,
    errorCount: nat,
    diagnostic: Option<Diagnostic>,
    affectedIssueIds: seq<string>)

  datatype Outcome = Returned(result: PhaseResult) | HandlerThrew

  function ResultOf(outcome: Outcome): PhaseResult {
    match outcome
    case Returned(result) => result
    case HandlerThrew => PhaseResult(PhaseFailed, 0, 0, 1, Some(UnhandledPhaseError), [])
  }

  datatype EngineOutcome =
    | EngineCompleted
    | EngineCompletedWithErrors(totalErrors: nat)
    | EngineFailed(diagnostic: Diagnostic, phase: Phase)

  /** Where an execution is: awaiting a handler, returned, or left by an exception of a subscriber. */
  datatype Position =
    | AwaitingHandler(i: nat, totalErrors: nat)
    | Done(outcome: EngineOutcome)
    | Rejected

  /** The job row and its channel, and where the execution is. */
  datatype Execution = Execution(row: RestoreJob, events: seq<Event>, at: Position)

  /** Whether a subscriber throws at the k-th publication of a step. */
  predicate Throws(throwing: seq<bool>, k: nat) {
    k < |throwing| && throwing[k]
  }

  // Steps, from one await to the next

  function InitialProgress(handlers: seq<Phase>): (p: seq<PhaseProgress>)
    ensures |p| == |handlers|
    ensures forall k :: 0 <= k < |p| ==> p[k] == PhaseProgress(handlers[k], PhasePending, 0, 0, 0, None, None)
  {
    seq(|handlers|, k requires 0 <= k < |handlers| => PhaseProgress(handlers[k], PhasePending, 0, 0, 0, None, None))
  }

  function Begun(progress: seq<PhaseProgress>, i: nat, now: int): seq<PhaseProgress> {
    if i < |progress| then progress[i := progress[i].(status := PhaseRunning, startedAt := Some(now))] else progress
  }

  function Ended(progress: seq<PhaseProgress>, i: nat, result: PhaseResult, now: int): seq<PhaseProgress> {
    if i < |progress| then
      progress[i := progress[i].(status := result.status, total := result.total, processed := result.processed,
                                 errorCount := result.errorCount, completedAt := Some(now))]
    else progress
  }

  /** Begins phase `i`, or ends the execution when there is none. */
  function BeginPhase(row: RestoreJob, events: seq<Event>, handlers: seq<Phase>, i: nat, totalErrors: nat, now: int,
                      throws: bool): Execution
  {
    if i < |handlers| then
      Execution(row.(currentPhase := Some(handlers[i]), phaseProgress := Begun(row.phaseProgress, i, now)),
                events + [PhaseTransition(handlers[i])],
                if throws then Rejected else AwaitingHandler(i, totalErrors))
    else
      Execution(row.(currentPhase := None), events,
                Done(if totalErrors > 0 then EngineCompletedWithErrors(totalErrors) else EngineCompleted))
  }

  function Start(row: RestoreJob, events: seq<Event>, handlers: seq<Phase>, now: int, throws: bool): Execution {
    BeginPhase(row.(phaseProgress := InitialProgress(handlers)), events, handlers, 0, 0, now, throws)
  }

  predicate Warns(phase: Phase, result: PhaseResult) {
    phase == PostIssuePhase && result.affectedIssueIds != []
  }

  function DiagnosticOf(phase: Phase, result: PhaseResult): Diagnostic {
    if result.diagnostic.Some? then result.diagnostic.value else PhaseFailedBy(phase)
  }

  /** After phase `i` finished and its errors were counted: the media warning if there is one, then the next phase. */
  function GoOn(row: RestoreJob, events: seq<Event>, handlers: seq<Phase>, i: nat, totalErrors: nat,
                result: PhaseResult, now: int, throwing: seq<bool>): Execution
    requires i < |handlers|
  {
    if Warns(handlers[i], result) then
      var warned := WarnedRow(row, result.affectedIssueIds);
      var published := events + [AdfMediaWarning(result.affectedIssueIds)];
      if Throws(throwing, 0) then Execution(warned, published, Rejected)
      else BeginPhase(warned, published, handlers, i + 1, totalErrors, now, Throws(throwing, 1))
    else
      BeginPhase(row, events, handlers, i + 1, totalErrors, now, Throws(throwing, 0))
  }

  /** After phase `i` failed: the diagnostic is stored before it is announced. */
  function Halt(row: RestoreJob, events: seq<Event>, handlers: seq<Phase>, i: nat, diagnostic: Diagnostic, now: int,
                throws: bool): Execution
    requires i < |handlers|
  {
    Execution(FailedRow(row, diagnostic, now), events + [PhaseFailure(handlers[i], diagnostic)],
              if throws then Rejected else Done(EngineFailed(diagnostic, handlers[i])))
  }

  /** The row once the outcome of phase `i` is stored and, unless it failed, its errors are counted. */
  function CountedRow(row: RestoreJob, i: nat, result: PhaseResult, now: int): RestoreJob {
    row.(phaseProgress := Ended(row.phaseProgress, i, result, now),
         errorCount := if result.status.PhaseFailed? then row.errorCount else row.errorCount + result.errorCount)
  }

  function Taken(row: RestoreJob, events: seq<Event>, handlers: seq<Phase>, i: nat, totalErrors: nat,
                 result: PhaseResult, now: int, throwing: seq<bool>): Execution
    requires i < |handlers|
  {
    if result.status.PhaseFailed? then
      Halt(row, events, handlers, i, DiagnosticOf(handlers[i], result), now, Throws(throwing, 0))
    else
      GoOn(row, events, handlers, i, totalErrors, result, now, throwing)
  }

  /** Takes the outcome of phase `i`: halts if it failed, otherwise counts its errors and goes on. */
  function EndPhase(row: RestoreJob, events: seq<Event>, handlers: seq<Phase>, i: nat, totalErrors: nat,
                    outcome: Outcome, now: int, throwing: seq<bool>): Execution
    requires i < |handlers|
  {
    var result := ResultOf(outcome);
    Taken(CountedRow(row, i, result, now), events, handlers, i, totalErrors + result.errorCount, result, now, throwing)
  }

  // What holds at every await

  predicate Finished(status: PhaseStatus) {
    status.PhaseCompleted? || status.PhaseCompletedWithErrors?
  }

  /** The phases announced on a channel. */
  function Transitions(events: seq<Event>): seq<Phase> {
    if events == [] then []
    else
      var last := events[|events| - 1];
      Transitions(events[..|events| - 1]) + if last.PhaseTransition? then [last.phase] else []
  }

  /** The errors of the phases that did not fail. */
  function CountedErrors(progress: seq<PhaseProgress>): nat {
    if progress == [] then 0
    else
      var last := progress[|progress| - 1];
      CountedErrors(progress[..|progress| - 1]) + if Finished(last.status) then last.errorCount else 0
  }

  /** The first `n` phases were begun, all but the last of them finished, and the rest are untouched. */
  ghost predicate Shape(progress: seq<PhaseProgress>, handlers: seq<Phase>, n: nat) {
    && |progress| == |handlers| && n <= |handlers|
    && (forall k :: 0 <= k < |progress| ==> progress[k].phase == handlers[k])
    && (forall k :: 0 <= k < n - 1 ==> Finished(progress[k].status))
    && (n > 0 ==> !progress[n - 1].status.PhasePending?)
    && (forall k :: n <= k < |progress| ==>
          progress[k] == PhaseProgress(handlers[k], PhasePending, 0, 0, 0, None, None))
  }

  /** The phases announced, the stored progress and the stored error count agree. */
  ghost predicate Books(progress: seq<PhaseProgress>, errorCount: nat, announced: seq<Phase>, handlers: seq<Phase>) {
    && |announced| <= |handlers| && announced == handlers[..|announced|]
    && Shape(progress, handlers, |announced|)
    && errorCount == CountedErrors(progress)
  }

  ghost predicate BooksOk(row: RestoreJob, events: seq<Event>, handlers: seq<Phase>) {
    Books(row.phaseProgress, row.errorCount, Transitions(events), handlers)
  }

  /** What the position adds. */
  ghost predicate PositionOk(x: Execution, handlers: seq<Phase>) {
    var n := |Transitions(x.events)|;
    n <= |handlers| == |x.row.phaseProgress| &&
    match x.at
    case AwaitingHandler(i, totalErrors) =>
      && n == i + 1 && x.row.phaseProgress[i].status.PhaseRunning? && x.row.currentPhase == Some(handlers[i])
      && x.row.phaseProgress[i].total == x.row.phaseProgress[i].processed == 0
      && totalErrors == x.row.errorCount
    case Done(EngineFailed(diagnostic, phase)) =>
      && n > 0 && phase == handlers[n - 1] && x.row.phaseProgress[n - 1].status.PhaseFailed?
      && x.row.status == Failed && x.row.failureDiagnostic == Some(diagnostic)
    case Done(outcome) =>
      && n == |handlers| && (forall k :: 0 <= k < n ==> Finished(x.row.phaseProgress[k].status))
      && x.row.currentPhase == None
      && outcome == if x.row.errorCount == 0 then EngineCompleted else EngineCompletedWithErrors(x.row.errorCount)
    case Rejected => n > 0
  }

  ghost predicate ExecutionOk(x: Execution, handlers: seq<Phase>) {
    BooksOk(x.row, x.events, handlers) && PositionOk(x, handlers)
  }

  lemma TransitionsAppend(events: seq<Event>, e: Event)
    ensures Transitions(events + [e]) == Transitions(events) + if e.PhaseTransition? then [e.phase] else []
  {
    assert (events + [e])[..|events|] == events;
  }

  lemma {:induction false} CountedErrorsUpdate(progress: seq<PhaseProgress>, i: nat, p: PhaseProgress)
    requires i < |progress|
    ensures CountedErrors(progress[i := p])
            == CountedErrors(progress) - (if Finished(progress[i].status) then progress[i].errorCount else 0)
               + (if Finished(p.status) then p.errorCount else 0)
  {
    var n := |progress| - 1;
    if i == n {
      assert progress[i := p][..n] == progress[..n];
    } else {
      assert progress[i := p][..n] == progress[..n][i := p];
      CountedErrorsUpdate(progress[..n], i, p);
    }
  }

  lemma {:induction false} NothingCounted(progress: seq<PhaseProgress>)
    requires forall k :: 0 <= k < |progress| ==> progress[k].status.PhasePending?
    ensures CountedErrors(progress) == 0
  {
    if progress != [] {
      NothingCounted(progress[..|progress| - 1]);
    }
  }

  lemma BeginKeepsBooks(progress: seq<PhaseProgress>, errorCount: nat, announced: seq<Phase>, handlers: seq<Phase>,
                        i: nat, now: int)
    requires Books(progress, errorCount, announced, handlers) && |announced| == i < |handlers|
    requires i > 0 ==> Finished(progress[i - 1].status)
    ensures Books(Begun(progress, i, now), errorCount, announced + [handlers[i]], handlers)
  {
    CountedErrorsUpdate(progress, i, Begun(progress, i, now)[i]);
  }

  lemma EndKeepsBooks(progress: seq<PhaseProgress>, errorCount: nat, announced: seq<Phase>, handlers: seq<Phase>,
                      i: nat, result: PhaseResult, now: int)
    requires Books(progress, errorCount, announced, handlers) && |announced| == i + 1
    requires progress[i].status.PhaseRunning?
    ensures Books(Ended(progress, i, result, now),
                  if Finished(result.status) then errorCount + result.errorCount else errorCount,
                  announced, handlers)
    ensures Ended(progress, i, result, now)[i].status == result.status
  {
    CountedErrorsUpdate(progress, i, Ended(progress, i, result, now)[i]);
  }

  lemma BeginPhaseIsOk(row: RestoreJob, events: seq<Event>, handlers: seq<Phase>, i: nat, totalErrors: nat, now: int,
                       throws: bool)
    requires BooksOk(row, events, handlers) && |Transitions(events)| == i && totalErrors == row.errorCount
    requires i > 0 ==> Finished(row.phaseProgress[i - 1].status)
    ensures ExecutionOk(BeginPhase(row, events, handlers, i, totalErrors, now, throws), handlers)
  {
    if i < |handlers| {
      TransitionsAppend(events, PhaseTransition(handlers[i]));
      BeginKeepsBooks(row.phaseProgress, row.errorCount, Transitions(events), handlers, i, now);
    }
  }

  lemma StartIsOk(row: RestoreJob, events: seq<Event>, handlers: seq<Phase>, now: int, throws: bool)
    requires Transitions(events) == [] && row.errorCount == 0
    ensures ExecutionOk(Start(row, events, handlers, now, throws), handlers)
  {
    NothingCounted(InitialProgress(handlers));
    BeginPhaseIsOk(row.(phaseProgress := InitialProgress(handlers)), events, handlers, 0, 0, now, throws);
  }

  lemma GoOnIsOk(row: RestoreJob, events: seq<Event>, handlers: seq<Phase>, i: nat, totalErrors: nat,
                 result: PhaseResult, now: int, throwing: seq<bool>)
    requires BooksOk(row, events, handlers) && |Transitions(events)| == i + 1 <= |handlers|
    requires Finished(row.phaseProgress[i].status) && totalErrors == row.errorCount
    ensures ExecutionOk(GoOn(row, events, handlers, i, totalErrors, result, now, throwing), handlers)
  {
    if Warns(handlers[i], result) {
      var warned := WarnedRow(row, result.affectedIssueIds);
      var published := events + [AdfMediaWarning(result.affectedIssueIds)];
      TransitionsAppend(events, AdfMediaWarning(result.affectedIssueIds));
      BeginPhaseIsOk(warned, published, handlers, i + 1, totalErrors, now, Throws(throwing, 1));
    } else {
      BeginPhaseIsOk(row, events, handlers, i + 1, totalErrors, now, Throws(throwing, 0));
    }
  }

  lemma HaltIsOk(row: RestoreJob, events: seq<Event>, handlers: seq<Phase>, i: nat, diagnostic: Diagnostic, now: int,
                 throws: bool)
    requires BooksOk(row, events, handlers) && |Transitions(events)| == i + 1 <= |handlers|
    requires row.phaseProgress[i].status.PhaseFailed?
    ensures ExecutionOk(Halt(row, events, handlers, i, diagnostic, now, throws), handlers)
  {
    TransitionsAppend(events, PhaseFailure(handlers[i], diagnostic));
  }

  lemma EndedIsOk(x: Execution, handlers: seq<Phase>, result: PhaseResult, now: int)
    requires x.at.AwaitingHandler? && x.at.i < |handlers| && ExecutionOk(x, handlers)
    ensures var counted := CountedRow(x.row, x.at.i, result, now);
            && BooksOk(counted, x.events, handlers) && |Transitions(x.events)| == x.at.i + 1
            && counted.phaseProgress[x.at.i].status == result.status
            && (Finished(result.status) ==> counted.errorCount == x.at.totalErrors + result.errorCount)
  {
    EndKeepsBooks(x.row.phaseProgress, x.row.errorCount, Transitions(x.events), handlers, x.at.i, result, now);
  }

  lemma TakenIsOk(row: RestoreJob, events: seq<Event>, handlers: seq<Phase>, i: nat, totalErrors: nat,
                  result: PhaseResult, now: int, throwing: seq<bool>, x: Execution)
    requires i < |handlers| && |Transitions(events)| == i + 1
    requires x == Taken(row, events, handlers, i, totalErrors, result, now, throwing)
    requires BooksOk(row, events, handlers) && row.phaseProgress[i].status == result.status
    requires Finished(result.status) ==> row.errorCount == totalErrors
    ensures ExecutionOk(x, handlers)
  {
    if result.status.PhaseFailed? {
      HaltIsOk(row, events, handlers, i, DiagnosticOf(handlers[i], result), now, Throws(throwing, 0));
    } else {
      GoOnIsOk(row, events, handlers, i, totalErrors, result, now, throwing);
    }
  }

  /** The end of a phase keeps the books, whatever its outcome. */
  lemma EndPhaseIsOk(before: Execution, handlers: seq<Phase>, outcome: Outcome, now: int, throwing: seq<bool>,
                     after: Execution)
    requires before.at.AwaitingHandler? && before.at.i < |handlers| && ExecutionOk(before, handlers)
    requires after == EndPhase(before.row, before.events, handlers, before.at.i, before.at.totalErrors, outcome, now,
                               throwing)
    ensures ExecutionOk(after, handlers)
  {
    var result := ResultOf(outcome);
    EndedIsOk(before, handlers, result, now);
    TakenIsOk(CountedRow(before.row, before.at.i, result, now), before.events, handlers, before.at.i,
              before.at.totalErrors + result.errorCount, result, now, throwing, after);
  }

  // Whole executions

  /** What the rest of the program does to the job while a handler is awaited. */
  datatype Meanwhile = Meanwhile(status: JobStatus, lastHeartbeatAt: Option<int>, stalled: bool, published: seq<Event>)

  /** One await: what happens meanwhile, the outcome, and the clock and the subscribers afterwards. */
  datatype Awaited = Awaited(outcome: Outcome, meanwhile: Meanwhile, now: int, throwing: seq<bool>)

  function RowAfter(row: RestoreJob, m: Meanwhile): RestoreJob {
    row.(status := m.status, lastHeartbeatAt := m.lastHeartbeatAt, stalled := m.stalled)
  }

  function Step(x: Execution, handlers: seq<Phase>, a: Awaited): Execution
    requires x.at.AwaitingHandler? && x.at.i < |handlers|
  {
    EndPhase(RowAfter(x.row, a.meanwhile), x.events + a.meanwhile.published, handlers, x.at.i, x.at.totalErrors,
             a.outcome, a.now, a.throwing)
  }

  /** The execution as far as the script of awaits goes. */
  function Continue(x: Execution, handlers: seq<Phase>, script: seq<Awaited>): Execution
    decreases |script|
  {
    if script == [] || !x.at.AwaitingHandler? || x.at.i >= |handlers| then x
    else Continue(Step(x, handlers, script[0]), handlers, script[1..])
  }

  class RestoreEngine {
    const handlers: seq<Phase>
    const store: RestoreJobStore
    const bus: RestoreEventBus

    constructor (handlers: seq<Phase>, store: RestoreJobStore, bus: RestoreEventBus)
      ensures this.handlers == handlers && this.store == store && this.bus == bus
    {
      this.handlers := handlers;
      this.store := store;
      this.bus := bus;
    }

    /** The job stands as `x` says, and of the other jobs nothing has changed since `base`. */
    ghost predicate Stands(jobId: string, base: Surroundings, row: RestoreJob, events: seq<Event>)
      reads store, bus
    {
      && jobId in base.jobs && store.jobs == base.jobs[jobId := row]
      && bus.Channel(jobId) == events && bus.Elsewhere(jobId) == base.elsewhere
    }

    method Publish(jobId: string, event: Event, throws: bool) returns (threw: bool)
      modifies bus
      ensures threw == throws && bus.Channel(jobId) == old(bus.Channel(jobId)) + [event]
      ensures bus.Elsewhere(jobId) == old(bus.Elsewhere(jobId))
    {
      bus.Publish(jobId, event);
      threw := throws;
    }

    /** The head of the loop body: phase `i` is marked running and announced. */
    method MarkRunning(jobId: string, i: nat, progress: seq<PhaseProgress>, now: int, throws: bool,
                       ghost base: Surroundings, ghost row: RestoreJob, ghost events: seq<Event>)
      returns (threw: bool, marked: seq<PhaseProgress>)
      requires Stands(jobId, base, row, events) && i < |handlers| && progress == row.phaseProgress
      modifies store`jobs, bus
      ensures threw == throws && marked == Begun(progress, i, now)
      ensures Stands(jobId, base, row.(currentPhase := Some(handlers[i]), phaseProgress := marked),
                     events + [PhaseTransition(handlers[i])])
    {
      marked := progress;
      if i < |progress| {
        marked := progress[i := progress[i].(status := PhaseRunning, startedAt := Some(now))];
      }
      store.SetCurrentPhase(jobId, Some(handlers[i]));
      assert store.jobs == base.jobs[jobId := row.(currentPhase := Some(handlers[i]))];
      store.UpdatePhaseProgress(jobId, marked);
      threw := Publish(jobId, PhaseTransition(handlers[i]), throws);
    }

    method StoreResult(jobId: string, i: nat, progress: seq<PhaseProgress>, result: PhaseResult, now: int,
                       ghost base: Surroundings, ghost row: RestoreJob, ghost events: seq<Event>)
      returns (marked: seq<PhaseProgress>)
      requires Stands(jobId, base, row, events) && progress == row.phaseProgress
      modifies store`jobs
      ensures marked == Ended(progress, i, result, now)
      ensures Stands(jobId, base, row.(phaseProgress := marked), events)
    {
      marked := progress;
      if i < |progress| {
        marked := progress[i := progress[i].(status := result.status, total := result.total,
                                             processed := result.processed, errorCount := result.errorCount,
                                             completedAt := Some(now))];
      }
      store.UpdatePhaseProgress(jobId, marked);
    }

    method Fail(jobId: string, i: nat, diagnostic: Diagnostic, now: int, throws: bool,
                ghost base: Surroundings, ghost row: RestoreJob, ghost events: seq<Event>)
      returns (at: Position)
      requires Stands(jobId, base, row, events) && i < |handlers|
      modifies store`jobs, bus
      ensures var x := Halt(row, events, handlers, i, diagnostic, now, throws);
              at == x.at && Stands(jobId, base, x.row, x.events)
    {
      store.SetFailed(jobId, diagnostic, now);
      var threw := Publish(jobId, PhaseFailure(handlers[i], diagnostic), throws);
      at := if threw then Rejected else Done(EngineFailed(diagnostic, handlers[i]));
    }

    /** One increment per error. */
    method AddErrors(jobId: string, errors: nat,
                     ghost base: Surroundings, ghost row: RestoreJob, ghost events: seq<Event>)
      requires Stands(jobId, base, row, events)
      modifies store`jobs
      ensures Stands(jobId, base, row.(errorCount := row.errorCount + errors), events)
    {
      for j := 0 to errors
        invariant Stands(jobId, base, row.(errorCount := row.errorCount + j), events)
      {
        store.IncrementErrorCount(jobId);
      }
    }

    method Warn(jobId: string, issueIds: seq<string>, throws: bool,
                ghost base: Surroundings, ghost row: RestoreJob, ghost events: seq<Event>)
      returns (threw: bool)
      requires Stands(jobId, base, row, events)
      modifies store`jobs, bus
      ensures threw == throws && Stands(jobId, base, WarnedRow(row, issueIds), events + [AdfMediaWarning(issueIds)])
    {
      store.SetAdfMediaWarnings(jobId, issueIds);
      threw := Publish(jobId, AdfMediaWarning(issueIds), throws);
    }

    /** Whatever else happens to the job while a handler runs. */
    method Await(jobId: string, m: Meanwhile, ghost base: Surroundings, ghost row: RestoreJob, ghost events: seq<Event>)
      requires Stands(jobId, base, row, events)
      modifies store`jobs, bus
      ensures Stands(jobId, base, RowAfter(row, m), events + m.published)
    {
      store.jobs := store.jobs[jobId := RowAfter(store.jobs[jobId], m)];
      for j := 0 to |m.published|
        invariant Stands(jobId, base, RowAfter(row, m), events + m.published[..j])
      {
        assert m.published[..j + 1] == m.published[..j] + [m.published[j]];
        bus.Publish(jobId, m.published[j]);
      }
      assert m.published[..|m.published|] == m.published;
    }

    /** After a phase that did not fail: its errors, and the warning when there is one. */
    method CountAndWarn(jobId: string, i: nat, result: PhaseResult, throwing: seq<bool>,
                        ghost totalErrors: nat, ghost now: int, ghost base: Surroundings, ghost row: RestoreJob,
                        ghost events: seq<Event>, ghost end: Execution)
      returns (threw: bool, throws': bool, ghost row': RestoreJob, ghost events': seq<Event>)
      requires Stands(jobId, base, row, events) && i < |handlers|
      requires end == GoOn(row.(errorCount := row.errorCount + result.errorCount), events, handlers, i, totalErrors,
                           result, now, throwing)
      modifies store`jobs, bus
      ensures Stands(jobId, base, row', events') && row'.phaseProgress == row.phaseProgress
      ensures threw ==> end == Execution(row', events', Rejected)
      ensures !threw ==> end == BeginPhase(row', events', handlers, i + 1, totalErrors, now, throws')
    {
      throws' := Throws(throwing, 0);
      AddErrors(jobId, result.errorCount, base, row, events);
      row', events', threw := row.(errorCount := row.errorCount + result.errorCount), events, false;
      if handlers[i] == PostIssuePhase && |result.affectedIssueIds| > 0 {
        threw := Warn(jobId, result.affectedIssueIds, throws', base, row', events);
        row', events' := WarnedRow(row', result.affectedIssueIds), events + [AdfMediaWarning(result.affectedIssueIds)];
        throws' := Throws(throwing, 1);
      }
    }

    /** The tail of the loop body, from the outcome of the handler on. */
    method TakeOutcome(jobId: string, i: nat, progress: seq<PhaseProgress>, totalErrors: nat, a: Awaited,
                       ghost base: Surroundings, ghost row: RestoreJob, ghost events: seq<Event>, ghost end: Execution)
      returns (left: Option<Position>, progress': seq<PhaseProgress>, totalErrors': nat, throws': bool,
               ghost row': RestoreJob, ghost events': seq<Event>)
      requires Stands(jobId, base, row, events) && i < |handlers| && progress == row.phaseProgress
      requires EndsAs(row, events, handlers, i, totalErrors, a, end)
      modifies store`jobs, bus
      ensures Stands(jobId, base, row', events')
      ensures left.Some? ==> end == Execution(row', events', left.value) && !left.value.AwaitingHandler?
      ensures left == None ==> end == BeginPhase(row', events', handlers, i + 1, totalErrors', a.now, throws')
                               && progress' == row'.phaseProgress
    {
      var result := ResultOf(a.outcome);
      progress' := StoreResult(jobId, i, progress, result, a.now, base, row, events);
      ghost var ended := row.(phaseProgress := progress');
      if result.status == PhaseFailed {
        var diagnostic := if result.diagnostic.Some? then result.diagnostic.value else PhaseFailedBy(handlers[i]);
        var at := Fail(jobId, i, diagnostic, a.now, Throws(a.throwing, 0), base, ended, events);
        return Some(at), progress', totalErrors, false, end.row, end.events;
      }
      totalErrors' := totalErrors + result.errorCount;
      var threw;
      threw, throws', row', events' :=
        CountAndWarn(jobId, i, result, a.throwing, totalErrors', a.now, base, ended, events, end);
      left := if threw then Some(Rejected) else None;
    }

    /** The head of the loop for phase `i`, or its end when there is none left. */
    method BeginOrFinish(jobId: string, i: nat, progress: seq<PhaseProgress>, totalErrors: nat, now: int, throws: bool,
                         ghost base: Surroundings, ghost row: RestoreJob, ghost events: seq<Event>)
      returns (at: Position)
      requires Stands(jobId, base, row, events) && progress == row.phaseProgress
      modifies store`jobs, bus
      ensures var x := BeginPhase(row, events, handlers, i, totalErrors, now, throws);
              at == x.at && Stands(jobId, base, x.row, x.events)
    {
      if i < |handlers| {
        var threw, _ := MarkRunning(jobId, i, progress, now, throws, base, row, events);
        return if threw then Rejected else AwaitingHandler(i, totalErrors);
      }
      store.SetCurrentPhase(jobId, None);
      at := Done(if totalErrors > 0 then EngineCompletedWithErrors(totalErrors) else EngineCompleted);
    }

    /** From the beginning of an execution to its first await. */
    method StartExecution(jobId: string, now: int, throws: bool,
                          ghost base: Surroundings, ghost row: RestoreJob, ghost events: seq<Event>)
      returns (at: Position)
      requires Stands(jobId, base, row, events)
      modifies store`jobs, bus
      ensures var x := Start(row, events, handlers, now, throws);
              at == x.at && Stands(jobId, base, x.row, x.events)
    {
      var progress := InitialProgress(handlers);
      store.UpdatePhaseProgress(jobId, progress);
      at := BeginOrFinish(jobId, 0, progress, 0, now, throws, base, row.(phaseProgress := progress), events);
    }

    /** From the outcome of a handler to the next await, or to the end of the execution. */
    method ResumeExecution(jobId: string, i: nat, totalErrors: nat, a: Awaited,
                           ghost base: Surroundings, ghost row: RestoreJob, ghost events: seq<Event>,
                           ghost end: Execution)
      returns (at: Position)
      requires Stands(jobId, base, row, events) && i < |handlers|
      requires end == EndPhase(row, events, handlers, i, totalErrors, a.outcome, a.now, a.throwing)
      modifies store`jobs, bus
      ensures at == end.at && Stands(jobId, base, end.row, end.events)
    {
      EndPhaseIs(row, events, handlers, i, totalErrors, a, end);
      var left, progress, total, throws;
      ghost var row', events';
      left, progress, total, throws, row', events' :=
        TakeOutcome(jobId, i, store.jobs[jobId].phaseProgress, totalErrors, a, base, row, events, end);
      if left != None {
        return left.value;
      }
      at := BeginOrFinish(jobId, i + 1, progress, total, a.now, throws, base, row', events');
    }

    /**
     All phases in order; halts at the first that fails. The job ends exactly as the steps above say, whatever the
     handlers return and whatever happens while they run; an unknown job is rejected.
     */
    method Execute(jobId: string, script: seq<Awaited>, startedAt: int, firstThrows: bool) returns (at: Position)
      requires |script| == |handlers|
      modifies store`jobs, bus
      ensures jobId !in old(store.jobs) ==>
                at == Rejected && store.jobs == old(store.jobs) && bus.published == old(bus.published)
      ensures jobId in old(store.jobs) ==>
                var x := Continue(Start(old(store.jobs[jobId]), old(bus.Channel(jobId)), handlers, startedAt,
                                        firstThrows),
                                  handlers, script);
                at == x.at && Stands(jobId, old(Surroundings(store.jobs, bus.Elsewhere(jobId))), x.row, x.events)
    {
      var job := store.GetJob(jobId);
      if job == None {
        return Rejected;
      }
      ghost var base := Surroundings(store.jobs, bus.Elsewhere(jobId));
      var progress := InitialProgress(handlers);
      store.UpdatePhaseProgress(jobId, progress);
      ghost var row, events := job.value.(phaseProgress := progress), bus.Channel(jobId);
      ghost var end := Continue(Start(job.value, events, handlers, startedAt, firstThrows), handlers, script);
      var totalErrors, now, throws := 0, startedAt, firstThrows;
      for i := 0 to |handlers|
        invariant Stands(jobId, base, row, events) && progress == row.phaseProgress
        invariant Continue(BeginPhase(row, events, handlers, i, totalErrors, now, throws), handlers, script[i..]) == end
      {
        var threw;
        threw, progress := MarkRunning(jobId, i, progress, now, throws, base, row, events);
        ghost var begun := BeginPhase(row, events, handlers, i, totalErrors, now, throws);
        row, events := begun.row, begun.events;
        if threw {
          return Rejected;
        }
        ContinueOnce(begun, handlers, script, i);
        ghost var stepped := Step(begun, handlers, script[i]);
        EndPhaseIs(RowAfter(row, script[i].meanwhile), events + script[i].meanwhile.published, handlers, i, totalErrors,
                   script[i], stepped);
        Await(jobId, script[i].meanwhile, base, row, events);
        row, events := RowAfter(row, script[i].meanwhile), events + script[i].meanwhile.published;
        var left;
        left, progress, totalErrors, throws, row, events :=
          TakeOutcome(jobId, i, progress, totalErrors, script[i], base, row, events, stepped);
        if left != None {
          return left.value;
        }
        now := script[i].now;
      }
      store.SetCurrentPhase(jobId, None);
      at := Done(if totalErrors > 0 then EngineCompletedWithErrors(totalErrors) else EngineCompleted);
    }
  }

  ghost predicate EndsAs(row: RestoreJob, events: seq<Event>, handlers: seq<Phase>, i: nat, totalErrors: nat,
                         a: Awaited, end: Execution)
  {
    && i < |handlers|
    && var result := ResultOf(a.outcome);
       var ended := row.(phaseProgress := Ended(row.phaseProgress, i, result, a.now));
       if result.status.PhaseFailed?
       then end == Halt(ended, events, handlers, i, DiagnosticOf(handlers[i], result), a.now, Throws(a.throwing, 0))
       else end == GoOn(ended.(errorCount := ended.errorCount + result.errorCount), events, handlers, i,
                        totalErrors + result.errorCount, result, a.now, a.throwing)
  }

  lemma EndPhaseIs(row: RestoreJob, events: seq<Event>, handlers: seq<Phase>, i: nat, totalErrors: nat, a: Awaited,
                   end: Execution)
    requires i < |handlers| && end == EndPhase(row, events, handlers, i, totalErrors, a.outcome, a.now, a.throwing)
    ensures EndsAs(row, events, handlers, i, totalErrors, a, end)
  {
  }

  lemma ContinueOnce(x: Execution, handlers: seq<Phase>, script: seq<Awaited>, i: nat)
    requires i < |script| == |handlers| && x.at.AwaitingHandler? && x.at.i == i
    ensures Continue(x, handlers, script[i..]) == Continue(Step(x, handlers, script[i]), handlers, script[i + 1..])
  {
    assert script[i..][1..] == script[i + 1..];
  }

  // What whole executions keep

  /** Only the engine announces phases. */
  ghost predicate Quiet(events: seq<Event>) {
    forall e :: e in events ==> !e.PhaseTransition?
  }

  lemma {:induction false} QuietAppend(events: seq<Event>, more: seq<Event>)
    requires Quiet(more)
    ensures Transitions(events + more) == Transitions(events)
  {
    if more == [] {
      assert events + more == events;
    } else {
      var n := |more| - 1;
      assert (events + more)[..|events + more| - 1] == events + more[..n];
      assert more[n] in more;
      QuietAppend(events, more[..n]);
    }
  }

  /** Whatever happens to the status, the heartbeat and the channel during an await keeps the books. */
  lemma AwaitIsOk(x: Execution, handlers: seq<Phase>, row: RestoreJob, more: seq<Event>)
    requires ExecutionOk(x, handlers) && (x.at.Done? && x.at.outcome.EngineFailed? ==> row == x.row)
    requires row == x.row.(status := row.status, lastHeartbeatAt := row.lastHeartbeatAt, stalled := row.stalled)
    requires Quiet(more)
    ensures ExecutionOk(Execution(row, x.events + more, x.at), handlers)
  {
    QuietAppend(x.events, more);
  }

  /**
   At every await and at the end, for any handlers, outcomes and interference: the phases announced are the first
   ones in order, all of them but the last are stored as finished and none after them was touched, and the stored
   error count is the sum over the phases that did not fail. So nothing starts after a failure, and an execution
   that does not halt is completed without errors exactly when that sum is zero.
   */
  lemma {:induction false} ExecutionsKeepBooks(x: Execution, handlers: seq<Phase>, script: seq<Awaited>)
    requires ExecutionOk(x, handlers) && forall a :: a in script ==> Quiet(a.meanwhile.published)
    ensures ExecutionOk(Continue(x, handlers, script), handlers)
    decreases |script|
  {
    if script != [] && x.at.AwaitingHandler? {
      var a := script[0];
      assert a in script;
      var later := Execution(RowAfter(x.row, a.meanwhile), x.events + a.meanwhile.published, x.at);
      AwaitIsOk(x, handlers, later.row, a.meanwhile.published);
      var next := Step(x, handlers, a);
      EndPhaseIsOk(later, handlers, a.outcome, a.now, a.throwing, next);
      ExecutionsKeepBooks(next, handlers, script[1..]);
    }
  }

  /** The outcome of an execution read off the handlers' outcomes alone. */
  function Verdict(handlers: seq<Phase>, script: seq<Awaited>, totalErrors: nat): EngineOutcome {
    if handlers == [] || script == [] then
      (if totalErrors == 0 then EngineCompleted else EngineCompletedWithErrors(totalErrors))
    else
      var result := ResultOf(script[0].outcome);
      if result.status.PhaseFailed? then EngineFailed(DiagnosticOf(handlers[0], result), handlers[0])
      else Verdict(handlers[1..], script[1..], totalErrors + result.errorCount)
  }

  ghost predicate NoSubscriberThrows(script: seq<Awaited>) {
    forall a :: a in script ==> a.throwing == []
  }

  lemma {:induction false} VerdictFrom(row: RestoreJob, events: seq<Event>, handlers: seq<Phase>, i: nat,
                                       totalErrors: nat, now: int, script: seq<Awaited>, x: Execution)
    requires i <= |handlers| && |script| == |handlers| - i && NoSubscriberThrows(script)
    requires x == BeginPhase(row, events, handlers, i, totalErrors, now, false)
    ensures Continue(x, handlers, script).at == Done(Verdict(handlers[i..], script, totalErrors))
    decreases |script|, 0
  {
    if script != [] {
      var a := script[0];
      assert a in script;
      var later := RowAfter(x.row, a.meanwhile);
      var next := Step(x, handlers, a);
      EndPhaseIs(later, x.events + a.meanwhile.published, handlers, i, totalErrors, a, next);
      var result := ResultOf(a.outcome);
      if result.status.PhaseFailed? {
        assert !next.at.AwaitingHandler?;
      } else {
        assert handlers[i..][1..] == handlers[i + 1..];
        NextBegins(later, x.events + a.meanwhile.published, handlers, i, totalErrors, a, next, script[1..]);
      }
    }
  }

  lemma {:induction false} NextBegins(row: RestoreJob, events: seq<Event>, handlers: seq<Phase>, i: nat,
                                      totalErrors: nat, a: Awaited, next: Execution, rest: seq<Awaited>)
    requires EndsAs(row, events, handlers, i, totalErrors, a, next) && Finished(ResultOf(a.outcome).status)
    requires a.throwing == [] && |rest| == |handlers| - i - 1 && NoSubscriberThrows(rest)
    ensures Continue(next, handlers, rest).at
            == Done(Verdict(handlers[i + 1..], rest, totalErrors + ResultOf(a.outcome).errorCount))
    decreases |rest|, 1
  {
    var result := ResultOf(a.outcome);
    var counted := row.(phaseProgress := Ended(row.phaseProgress, i, result, a.now),
                        errorCount := row.errorCount + result.errorCount);
    var total := totalErrors + result.errorCount;
    if Warns(handlers[i], result) {
      VerdictFrom(WarnedRow(counted, result.affectedIssueIds), events + [AdfMediaWarning(result.affectedIssueIds)],
                  handlers, i + 1, total, a.now, rest, next);
    } else {
      VerdictFrom(counted, events, handlers, i + 1, total, a.now, rest, next);
    }
  }

  /**
   Unless a subscriber throws, the execution of all phases returns what the outcomes say: it fails with the diagnostic
   of the first phase that failed, and otherwise completes with the sum of the errors.
   */
  lemma ExecutionFollowsOutcomes(row: RestoreJob, events: seq<Event>, handlers: seq<Phase>, now: int,
                                 script: seq<Awaited>)
    requires |script| == |handlers| && NoSubscriberThrows(script)
    ensures Continue(Start(row, events, handlers, now, false), handlers, script).at
            == Done(Verdict(handlers, script, 0))
  {
    VerdictFrom(row.(phaseProgress := InitialProgress(handlers)), events, handlers, 0, 0, now, script,
                Start(row, events, handlers, now, false));
    assert handlers[0..] == handlers;
  }
}
