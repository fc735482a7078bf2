/**
 Restore jobs as a transition system: the worker of every job (src/restore/RestoreWorker.ts), its two timers, and the
 requests that post decisions or create jobs (src/restore/RestoreJobRouter.ts). A step is a stretch between two awaits
 of one worker, a tick of one timer, or a request; steps interleave freely. Handlers' outcomes, answers of other
 services and exceptions of bus subscribers are part of the steps.
 */
module RestoreLifecycle {
  import opened Common
  import opened RestoreStore
  import opened RestoreEngine

  datatype Config = Config(handlers: seq<Phase>, checksTrash: bool, staleThresholdMs: int)

  /** The handlers a worker runs, in dependency order. */
  const DEFAULT_HANDLERS: seq<Phase> :=
    [ProjectPhase, WorkflowPhase, CustomFieldPhase, BoardPhase, SprintPhase, IssueBodyPhase, PostIssuePhase]

  /** Where a worker is. */
  datatype Place =
    | Idle
    | CheckingTrash
    | InPhase(i: nat, totalErrors: nat, waiting: Option<string>)
    | EngineLeft(how: Position)
    | Downloading
    | Failing
    | RouterFailed
    | Ended

  datatype Job = Job(
    config: Config,
    row: RestoreJob,
    place: Place,
    timers: bool,
    lastHeartbeatAt: int,
    stalled: bool,
    events: seq<Event>)

  datatype System = System(jobs: map<string, Job>, conflicts: map<string, Conflict>, downloadPaths: map<string, string>)

  // Steps of one worker

  function NewWorker(config: Config, scope: Scope, destination: Destination, mode: ConflictMode): Job {
    Job(config, NewJob(scope, destination, mode), Idle, false, 0, false, [])
  }

  function PlaceOf(at: Position): Place {
    if at.AwaitingHandler? then InPhase(at.i, at.totalErrors, None) else EngineLeft(at)
  }

  function FromEngine(j: Job, x: Execution): Job {
    j.(row := x.row, events := x.events, place := PlaceOf(x.at))
  }

  /** Past the trash check: an export is assembled, anything else goes through the phases. */
  function Proceed(j: Job, now: int, throwing: seq<bool>): Job {
    if j.row.destination.Export? then j.(place := Downloading)
    else FromEngine(j, Start(j.row, j.events, j.config.handlers, now, Throws(throwing, 0)))
  }

  predicate ChecksTrash(j: Job) {
    j.config.checksTrash && j.row.destination.Original? && j.row.scope.Projects?
  }

  /** The row runs, both timers are armed. */
  function Armed(j: Job, now: int): Job {
    j.(row := HeartbeatRow(j.row.(status := Running), now), lastHeartbeatAt := now, timers := true)
  }

  function Launch(j: Job, now: int, throwing: seq<bool>): Job {
    if ChecksTrash(j) then Armed(j, now).(place := CheckingTrash) else Proceed(Armed(j, now), now, throwing)
  }

  /** The timers stop, then the end is published; a subscriber that throws makes `run` reject. */
  function Conclude(j: Job, row: RestoreJob, status: JobStatus, throws: bool): Job {
    j.(row := row, timers := false, events := j.events + [Complete(status)], place := if throws then Failing else Ended)
  }

  function AfterTrashCheck(j: Job, blocked: bool, now: int, throwing: seq<bool>): Job {
    if blocked then Conclude(j, TrashBlockedRow(j.row), Failed, Throws(throwing, 0)) else Proceed(j, now, throwing)
  }

  function Reject(j: Job): Job {
    j.(timers := false, place := Failing)
  }

  /** A handler puts a conflict to the operator and waits. */
  function AskOperator(j: Job, conflictId: string, key: string): Job
    requires j.place.InPhase?
  {
    j.(row := j.row.(status := AwaitingDecision), events := j.events + [ConflictDecisionRequired(conflictId, key)],
       place := j.place.(waiting := Some(conflictId)))
  }

  /** The poll of a waiting handler finds a decision. */
  function GoOnDecided(j: Job): Job
    requires j.place.InPhase?
  {
    j.(row := j.row.(status := Running), place := j.place.(waiting := None))
  }

  function AfterHandler(j: Job, outcome: Outcome, now: int, throwing: seq<bool>): Job
    requires j.place.InPhase? && j.place.i < |j.config.handlers|
  {
    FromEngine(j, EndPhase(j.row, j.events, j.config.handlers, j.place.i, j.place.totalErrors, outcome, now, throwing))
  }

  /** A subscriber throws at the question, so the handler fails at once. */
  function QuestionThrew(processed: nat, total: nat): Outcome {
    Returned(PhaseResult(PhaseFailed, processed, total, 1, Some(ProjectWriteFailed), []))
  }

  function FinalStatus(outcome: EngineOutcome): JobStatus {
    match outcome
    case EngineCompleted => Completed
    case EngineCompletedWithErrors(_) => CompletedWithErrors
    case EngineFailed(_, _) => Failed
  }

  /** The worker resumes after the engine. */
  function AfterEngine(j: Job, now: int, throwing: seq<bool>): Job
    requires j.place.EngineLeft?
  {
    match j.place.how
    case Done(outcome) =>
      var status := FinalStatus(outcome);
      Conclude(j, if status == Failed then j.row else CompletedRow(j.row, status, now).(currentPhase := None),
               status, Throws(throwing, 0))
    case _ => Reject(j)
  }

  function DownloadFails(j: Job, now: int, throws: bool): Job {
    Conclude(j, FailedRow(j.row, BrowserDownloadFailed, now), Failed, throws)
  }

  /** The archive is there; if publishing that throws, the handler of the download takes it for a failure. */
  function DownloadEnds(j: Job, now: int, throwing: seq<bool>): Job {
    var done := Conclude(j, CompletedRow(j.row, Completed, now), Completed, false);
    if Throws(throwing, 0) then DownloadFails(done, now, Throws(throwing, 1)) else done
  }

  /** The router's handler of a rejected `run`. */
  function CatchRejection(j: Job, now: int): Job {
    j.(row := FailedRow(j.row, WorkerError, now), place := RouterFailed)
  }

  function ProgressOf(row: RestoreJob, progress: seq<PhaseProgress>): Option<PhaseProgress> {
    if progress == [] then None
    else if Some(progress[0].phase) == row.currentPhase then Some(progress[0])
    else ProgressOf(row, progress[1..])
  }

  function HeartbeatEvent(row: RestoreJob): Event {
    var p := ProgressOf(row, row.phaseProgress);
    Heartbeat(row.currentPhase, if p == None then None else Some(p.value.processed),
              if p == None then None else Some(p.value.total), row.errorCount)
  }

  function Beat(j: Job, now: int): Job {
    var row := HeartbeatRow(j.row, now);
    j.(row := row, lastHeartbeatAt := now, stalled := false, events := j.events + [HeartbeatEvent(row)])
  }

  function CheckStall(j: Job, now: int): Job {
    var age := now - j.lastHeartbeatAt;
    if age > j.config.staleThresholdMs && !j.stalled
    then j.(stalled := true, row := j.row.(stalled := true), events := j.events + [StalledEvent(age)])
    else j
  }

  // The decisions endpoint

  datatype Answer = JobNotFound | InvalidState | InvalidRequest | ConflictNotFound | AlreadyResolved | Accepted

  function AnswerTo(row: Option<RestoreJob>, conflicts: map<string, Conflict>, jobId: string,
                    conflictId: Option<string>, decision: Option<Decision>): Answer
  {
    if row == None then JobNotFound
    else if row.value.status != AwaitingDecision then InvalidState
    else if conflictId == None || conflictId.value == "" || decision == None then InvalidRequest
    else if conflictId.value !in conflicts || conflicts[conflictId.value].jobId != jobId then ConflictNotFound
    else if conflicts[conflictId.value].decision != None then AlreadyResolved
    else Accepted
  }

  // Steps of the system

  datatype Step =
    | CreateJob(id: string, config: Config, scope: Scope, destination: Destination, mode: ConflictMode)
    | StartWorker(id: string, now: int, throwing: seq<bool>)
    | TrashAnswered(id: string, blocked: bool, now: int, throwing: seq<bool>)
    | TrashThrew(id: string)
    | Asked(id: string, conflictId: string, key: string)
    | AskedAndThrew(id: string, conflictId: string, key: string, processed: nat, total: nat, now: int,
                    throwing: seq<bool>)
    | Polled(id: string)
    | HandlerEnded(id: string, outcome: Outcome, now: int, throwing: seq<bool>)
    | EngineResumed(id: string, now: int, throwing: seq<bool>)
    | Downloaded(id: string, path: string, now: int, throwing: seq<bool>)
    | DownloadThrew(id: string, now: int, throwing: seq<bool>)
    | RejectionCaught(id: string, now: int)
    | HeartbeatTick(id: string, now: int)
    | StallTick(id: string, now: int)
    | DecisionPosted(id: string, about: Option<string>, decision: Option<Decision>, now: int)

  /** Whether the worker, or its timer, is where the step starts. */
  predicate Ready(j: Job, e: Step) {
    match e
    case StartWorker(_, _, _) => j.place.Idle?
    case TrashAnswered(_, _, _, _) => j.place.CheckingTrash?
    case TrashThrew(_) => j.place.CheckingTrash?
    case Asked(_, _, _) => j.place.InPhase? && j.place.waiting == None
    case AskedAndThrew(_, _, _, _, _, _, _) =>
      j.place.InPhase? && j.place.waiting == None && j.place.i < |j.config.handlers|
    case Polled(_) => j.place.InPhase? && j.place.waiting.Some?
    case HandlerEnded(_, _, _, _) => j.place.InPhase? && j.place.waiting == None && j.place.i < |j.config.handlers|
    case EngineResumed(_, _, _) => j.place.EngineLeft?
    case Downloaded(_, _, _, _) => j.place.Downloading?
    case DownloadThrew(_, _, _) => j.place.Downloading?
    case RejectionCaught(_, _) => j.place.Failing?
    case HeartbeatTick(_, _) => j.timers
    case StallTick(_, _) => j.timers
    case _ => false
  }

  /** A question gets a fresh conflict; a poll goes on only once there is a decision. */
  predicate ConflictsAllow(j: Job, e: Step, conflicts: map<string, Conflict>) {
    && (e.Asked? || e.AskedAndThrew? ==> e.conflictId !in conflicts)
    && (e.Polled? && j.place.InPhase? && j.place.waiting.Some? ==>
          j.place.waiting.value in conflicts && conflicts[j.place.waiting.value].decision.Some?)
  }

  predicate Enabled(s: System, e: Step) {
    if e.CreateJob? then e.id !in s.jobs
    else if e.DecisionPosted? then true
    else e.id in s.jobs && Ready(s.jobs[e.id], e) && ConflictsAllow(s.jobs[e.id], e, s.conflicts)
  }

  function WithJob(s: System, id: string, j: Job): System {
    s.(jobs := s.jobs[id := j])
  }

  /** What a step of a worker or of its timers does to the job. */
  function Moved(j: Job, e: Step): Job
    requires Ready(j, e)
  {
    match e
    case StartWorker(_, now, throwing) => Launch(j, now, throwing)
    case TrashAnswered(_, blocked, now, throwing) => AfterTrashCheck(j, blocked, now, throwing)
    case TrashThrew(_) => Reject(j)
    case Asked(_, c, key) => AskOperator(j, c, key)
    case AskedAndThrew(_, c, key, processed, total, now, throwing) =>
      AfterHandler(AskOperator(j, c, key), QuestionThrew(processed, total), now, throwing)
    case Polled(_) => GoOnDecided(j)
    case HandlerEnded(_, outcome, now, throwing) => AfterHandler(j, outcome, now, throwing)
    case EngineResumed(_, now, throwing) => AfterEngine(j, now, throwing)
    case Downloaded(_, _, now, throwing) => DownloadEnds(j, now, throwing)
    case DownloadThrew(_, now, throwing) => DownloadFails(j, now, Throws(throwing, 0))
    case RejectionCaught(_, now) => CatchRejection(j, now)
    case HeartbeatTick(_, now) => Beat(j, now)
    case StallTick(_, now) => CheckStall(j, now)
  }

  function ConflictsAfter(conflicts: map<string, Conflict>, e: Step): map<string, Conflict> {
    if e.Asked? || e.AskedAndThrew? then conflicts[e.conflictId := Conflict(e.id, e.key, None, None)] else conflicts
  }

  function Decide(s: System, id: string, conflictId: Option<string>, decision: Option<Decision>, now: int): System {
    var row := if id in s.jobs then Some(s.jobs[id].row) else None;
    if AnswerTo(row, s.conflicts, id, conflictId, decision) == Accepted then
      var c := conflictId.value;
      WithJob(s, id, s.jobs[id].(row := row.value.(status := Running))).(
        conflicts := s.conflicts[c := s.conflicts[c].(decision := decision, decidedAt := Some(now))])
    else s
  }

  /** A step that is not enabled changes nothing. */
  function Apply(s: System, e: Step): System {
    if !Enabled(s, e) then s
    else if e.CreateJob? then WithJob(s, e.id, NewWorker(e.config, e.scope, e.destination, e.mode))
    else if e.DecisionPosted? then Decide(s, e.id, e.about, e.decision, e.now)
    else
      System(s.jobs[e.id := Moved(s.jobs[e.id], e)], ConflictsAfter(s.conflicts, e),
             if e.Downloaded? then s.downloadPaths[e.id := e.path] else s.downloadPaths)
  }

  function Run(s: System, steps: seq<Step>): System {
    if steps == [] then s else Apply(Run(s, steps[..|steps| - 1]), steps[|steps| - 1])
  }

  const EMPTY: System := System(map[], map[], map[])

  // The invariant

  predicate Undecided(conflicts: map<string, Conflict>, c: string) {
    c in conflicts && conflicts[c].decision == None
  }

  predicate WaitsOn(j: Job, c: string) {
    j.place.InPhase? && j.place.waiting == Some(c)
  }

  /** The worker waits on a conflict of its own, and is stopped by nothing but that conflict being undecided. */
  ghost predicate HandshakeOk(id: string, j: Job, conflicts: map<string, Conflict>) {
    && (j.place.InPhase? && j.place.waiting.Some? ==>
          j.place.waiting.value in conflicts && conflicts[j.place.waiting.value].jobId == id)
    && (j.row.status == AwaitingDecision <==>
          j.place.InPhase? && j.place.waiting.Some? && Undecided(conflicts, j.place.waiting.value))
    && (forall c :: Undecided(conflicts, c) && conflicts[c].jobId == id ==> WaitsOn(j, c) || j.row.status == Failed)
  }

  predicate Terminal(status: JobStatus) {
    status == Completed || status == CompletedWithErrors || status == Failed
  }

  /** The status fits the place of the worker, and a diagnostic is there exactly when the job failed. */
  ghost predicate StatusOk(j: Job) {
    && (j.row.status == Failed <==> j.row.failureDiagnostic.Some?)
    && (j.row.trashWindowBlocked ==>
          j.row.status == Failed && j.row.phaseProgress == []
            && (j.place.Failing? || j.place.RouterFailed? || j.place.Ended?))
    && match j.place
       case Idle => j.row.status == Pending && !j.timers
       case CheckingTrash => j.row.status == Running && j.timers
       case InPhase(_, _, _) => (j.row.status == Running || j.row.status == AwaitingDecision) && j.timers
       case EngineLeft(Done(EngineFailed(_, _))) => j.row.status == Failed && j.timers
       case EngineLeft(Done(_)) => j.row.status == Running && j.timers
       case EngineLeft(_) => (j.row.status == Running || j.row.status == Failed) && j.timers
       case Downloading => j.row.status == Running && j.timers
       case Failing => (j.row.status == Running || Terminal(j.row.status)) && !j.timers
       case RouterFailed => j.row.status == Failed && !j.timers
       case Ended => Terminal(j.row.status) && !j.timers
  }

  /** Nothing was announced, stored or counted by the engine. */
  ghost predicate Untouched(row: RestoreJob, events: seq<Event>) {
    row.phaseProgress == [] && Transitions(events) == [] && row.errorCount == 0
  }

  /** A job that completed did so with all its phases finished, and its status tells whether there were errors. */
  ghost predicate CompletionOk(row: RestoreJob) {
    row.status == Completed || row.status == CompletedWithErrors ==>
      && (forall k :: 0 <= k < |row.phaseProgress| ==> Finished(row.phaseProgress[k].status))
      && (row.status == Completed <==> row.errorCount == 0)
      && !row.stalled && row.completedAt.Some?
  }

  ghost predicate EngineOk(j: Job) {
    match j.place
    case InPhase(i, totalErrors, _) =>
      ExecutionOk(Execution(j.row, j.events, AwaitingHandler(i, totalErrors)), j.config.handlers)
    case EngineLeft(how) => !how.AwaitingHandler? && ExecutionOk(Execution(j.row, j.events, how), j.config.handlers)
    case Idle => Untouched(j.row, j.events)
    case CheckingTrash => Untouched(j.row, j.events)
    case Downloading => Untouched(j.row, j.events)
    case _ => (Untouched(j.row, j.events) || BooksOk(j.row, j.events, j.config.handlers)) && CompletionOk(j.row)
  }

  ghost predicate JobOk(j: Job) {
    StatusOk(j) && EngineOk(j)
  }

  ghost predicate Inv(s: System) {
    && (forall id :: id in s.jobs ==> JobOk(s.jobs[id]) && HandshakeOk(id, s.jobs[id], s.conflicts))
    && (forall c :: c in s.conflicts ==> s.conflicts[c].jobId in s.jobs)
  }

  // Each step of a worker keeps the job in order

  lemma FromEngineIsOk(j: Job, x: Execution)
    requires ExecutionOk(x, j.config.handlers) && j.timers
    requires x.row.status == Failed <==> x.row.failureDiagnostic.Some?
    requires !x.row.trashWindowBlocked
    requires x.row.status == if x.at.Done? && x.at.outcome.EngineFailed? then Failed
                             else if x.at == Rejected && x.row.status == Failed then Failed
                             else Running
    ensures JobOk(FromEngine(j, x))
  {
  }

  lemma ProceedIsOk(j: Job, now: int, throwing: seq<bool>)
    requires Untouched(j.row, j.events) && j.row.status == Running && j.timers
    requires j.row.failureDiagnostic == None && !j.row.trashWindowBlocked
    ensures JobOk(Proceed(j, now, throwing))
  {
    if !j.row.destination.Export? {
      StartIsOk(j.row, j.events, j.config.handlers, now, Throws(throwing, 0));
      FromEngineIsOk(j, Start(j.row, j.events, j.config.handlers, now, Throws(throwing, 0)));
    }
  }

  lemma ConcludeIsOk(j: Job, row: RestoreJob, status: JobStatus, throws: bool)
    requires Untouched(row, j.events) || BooksOk(row, j.events, j.config.handlers)
    requires Terminal(row.status) && (row.status == Failed <==> row.failureDiagnostic.Some?) && CompletionOk(row)
    requires row.trashWindowBlocked ==> row.status == Failed && row.phaseProgress == []
    ensures JobOk(Conclude(j, row, status, throws))
  {
    TransitionsAppend(j.events, Complete(status));
  }

  /** What the end of a phase does to the fields the engine has no business with. */
  lemma EndPhaseStatus(before: Execution, handlers: seq<Phase>, outcome: Outcome, now: int, throwing: seq<bool>,
                       x: Execution)
    requires before.at.AwaitingHandler? && before.at.i < |handlers|
    requires x == EndPhase(before.row, before.events, handlers, before.at.i, before.at.totalErrors, outcome, now,
                           throwing)
    ensures if ResultOf(outcome).status.PhaseFailed?
            then x.row.status == Failed && x.row.failureDiagnostic.Some? && !x.at.AwaitingHandler?
                 && (x.at.Done? ==> x.at.outcome.EngineFailed?)
            else x.row.status == before.row.status && x.row.failureDiagnostic == before.row.failureDiagnostic
                 && (x.at.Done? ==> !x.at.outcome.EngineFailed?)
    ensures x.row.trashWindowBlocked == before.row.trashWindowBlocked
  {
  }

  lemma AfterHandlerIsOk(j: Job, outcome: Outcome, now: int, throwing: seq<bool>, t: Job)
    requires j.place.InPhase? && j.place.i < |j.config.handlers| && JobOk(j)
    requires j.row.status == Running || ResultOf(outcome).status.PhaseFailed?
    requires t == AfterHandler(j, outcome, now, throwing)
    ensures JobOk(t) && t.row.status != AwaitingDecision && (t.place.InPhase? ==> t.place.waiting == None)
    ensures ResultOf(outcome).status.PhaseFailed? ==> t.row.status == Failed
  {
    var before := Execution(j.row, j.events, AwaitingHandler(j.place.i, j.place.totalErrors));
    var x := EndPhase(j.row, j.events, j.config.handlers, j.place.i, j.place.totalErrors, outcome, now, throwing);
    EndPhaseIsOk(before, j.config.handlers, outcome, now, throwing, x);
    EndPhaseStatus(before, j.config.handlers, outcome, now, throwing, x);
    FromEngineIsOk(j, x);
  }

  lemma AskIsOk(j: Job, c: string, key: string)
    requires j.place.InPhase? && JobOk(j)
    ensures JobOk(AskOperator(j, c, key))
  {
    TransitionsAppend(j.events, ConflictDecisionRequired(c, key));
  }

  lemma AfterEngineIsOk(j: Job, now: int, throwing: seq<bool>)
    requires j.place.EngineLeft? && JobOk(j)
    ensures JobOk(AfterEngine(j, now, throwing))
  {
    if j.place.how.Done? {
      var status := FinalStatus(j.place.how.outcome);
      if status == Failed {
        ConcludeIsOk(j, j.row, status, Throws(throwing, 0));
      } else {
        ConcludeIsOk(j, CompletedRow(j.row, status, now).(currentPhase := None), status, Throws(throwing, 0));
      }
    }
  }

  lemma DownloadEndsIsOk(j: Job, now: int, throwing: seq<bool>)
    requires j.place.Downloading? && JobOk(j)
    ensures JobOk(DownloadEnds(j, now, throwing))
  {
    ConcludeIsOk(j, CompletedRow(j.row, Completed, now), Completed, false);
    var done := Conclude(j, CompletedRow(j.row, Completed, now), Completed, false);
    if Throws(throwing, 0) {
      TransitionsAppend(j.events, Complete(Completed));
      ConcludeIsOk(done, FailedRow(done.row, BrowserDownloadFailed, now), Failed, Throws(throwing, 1));
    }
  }

  lemma TickIsOk(j: Job, t: Job, e: Event)
    requires JobOk(j) && j.timers && !e.PhaseTransition?
    requires t.row == j.row.(lastHeartbeatAt := t.row.lastHeartbeatAt, stalled := t.row.stalled)
    requires t == j.(row := t.row, lastHeartbeatAt := t.lastHeartbeatAt, stalled := t.stalled, events := j.events + [e])
    ensures JobOk(t)
  {
    TransitionsAppend(j.events, e);
  }

  /** How a step leaves the status: only a question makes it wait, and only a failed job stays failed. */
  ghost predicate LeavesStatus(j: Job, e: Step, t: Job) {
    && (if e.Asked? then t.row.status == AwaitingDecision && WaitsOn(t, e.conflictId)
        else if e.HeartbeatTick? || e.StallTick? then t.row.status == j.row.status && t.place == j.place
        else t.row.status != AwaitingDecision && (t.place.InPhase? ==> t.place.waiting == None))
    && (j.row.status == Failed || e.AskedAndThrew? ==> t.row.status == Failed)
  }

  lemma BeginningIsOk(j: Job, e: Step, t: Job)
    requires e.StartWorker? || e.TrashAnswered? || e.TrashThrew?
    requires JobOk(j) && Ready(j, e) && t == Moved(j, e)
    ensures JobOk(t) && LeavesStatus(j, e, t)
  {
    match e
    case StartWorker(_, now, throwing) =>
      if !ChecksTrash(j) {
        ProceedIsOk(Armed(j, now), now, throwing);
      }
    case TrashAnswered(_, blocked, now, throwing) =>
      if blocked {
        ConcludeIsOk(j, TrashBlockedRow(j.row), Failed, Throws(throwing, 0));
      } else {
        ProceedIsOk(j, now, throwing);
      }
    case TrashThrew(_) =>
  }

  lemma HandlerStepIsOk(j: Job, e: Step, t: Job)
    requires e.HandlerEnded? || e.AskedAndThrew?
    requires JobOk(j) && Ready(j, e) && t == Moved(j, e) && j.row.status == Running
    ensures JobOk(t) && LeavesStatus(j, e, t)
  {
    match e
    case AskedAndThrew(_, c, key, processed, total, now, throwing) =>
      AskIsOk(j, c, key);
      AfterHandlerIsOk(AskOperator(j, c, key), QuestionThrew(processed, total), now, throwing, t);
    case HandlerEnded(_, outcome, now, throwing) => AfterHandlerIsOk(j, outcome, now, throwing, t);
  }

  lemma QuestionStepIsOk(j: Job, e: Step, t: Job)
    requires e.Asked? || e.Polled?
    requires JobOk(j) && Ready(j, e) && t == Moved(j, e)
    ensures JobOk(t) && LeavesStatus(j, e, t)
  {
    if e.Asked? {
      AskIsOk(j, e.conflictId, e.key);
    }
  }

  lemma EndingIsOk(j: Job, e: Step, t: Job)
    requires e.EngineResumed? || e.Downloaded? || e.DownloadThrew? || e.RejectionCaught?
    requires JobOk(j) && Ready(j, e) && t == Moved(j, e)
    ensures JobOk(t) && LeavesStatus(j, e, t)
  {
    match e
    case EngineResumed(_, now, throwing) => AfterEngineIsOk(j, now, throwing);
    case Downloaded(_, _, now, throwing) => DownloadEndsIsOk(j, now, throwing);
    case DownloadThrew(_, now, throwing) =>
      ConcludeIsOk(j, FailedRow(j.row, BrowserDownloadFailed, now), Failed, Throws(throwing, 0));
    case RejectionCaught(_, _) =>
  }

  lemma TimerStepIsOk(j: Job, e: Step, t: Job)
    requires e.HeartbeatTick? || e.StallTick?
    requires JobOk(j) && Ready(j, e) && t == Moved(j, e)
    ensures JobOk(t) && LeavesStatus(j, e, t)
  {
    match e
    case HeartbeatTick(_, now) => TickIsOk(j, t, HeartbeatEvent(HeartbeatRow(j.row, now)));
    case StallTick(_, now) =>
      if now - j.lastHeartbeatAt > j.config.staleThresholdMs && !j.stalled {
        TickIsOk(j, t, StalledEvent(now - j.lastHeartbeatAt));
      }
  }

  lemma MovedIsOk(j: Job, e: Step, t: Job)
    requires JobOk(j) && Ready(j, e) && t == Moved(j, e)
    requires j.place.InPhase? && j.place.waiting == None ==> j.row.status == Running
    ensures JobOk(t) && LeavesStatus(j, e, t)
  {
    if e.StartWorker? || e.TrashAnswered? || e.TrashThrew? {
      BeginningIsOk(j, e, t);
    } else if e.HandlerEnded? || e.AskedAndThrew? {
      HandlerStepIsOk(j, e, t);
    } else if e.Asked? || e.Polled? {
      QuestionStepIsOk(j, e, t);
    } else if e.HeartbeatTick? || e.StallTick? {
      TimerStepIsOk(j, e, t);
    } else {
      EndingIsOk(j, e, t);
    }
  }

  // The handshake and the whole system

  lemma MoverKeepsHandshake(s: System, e: Step, t: Job)
    requires Inv(s) && Enabled(s, e) && !e.CreateJob? && !e.DecisionPosted? && t == Moved(s.jobs[e.id], e)
    ensures JobOk(t) && HandshakeOk(e.id, t, ConflictsAfter(s.conflicts, e))
  {
    var j := s.jobs[e.id];
    assert JobOk(j) && HandshakeOk(e.id, j, s.conflicts);
    MovedIsOk(j, e, t);
    var after := ConflictsAfter(s.conflicts, e);
    forall c | Undecided(after, c) && after[c].jobId == e.id
      ensures WaitsOn(t, c) || t.row.status == Failed
    {
      if c in s.conflicts {
        assert Undecided(s.conflicts, c);
      }
    }
  }

  /** A job does not notice what happens to the conflicts of others. */
  lemma OthersKeepHandshake(id: string, j: Job, conflicts: map<string, Conflict>, c: string, conflict: Conflict)
    requires HandshakeOk(id, j, conflicts) && conflict.jobId != id
    requires c in conflicts ==> conflicts[c].jobId == conflict.jobId
    ensures HandshakeOk(id, j, conflicts[c := conflict])
  {
    var after := conflicts[c := conflict];
    forall k | Undecided(after, k) && after[k].jobId == id
      ensures WaitsOn(j, k) || j.row.status == Failed
    {
      assert Undecided(conflicts, k);
    }
  }

  lemma WorkerStepKeepsInv(s: System, e: Step)
    requires Inv(s) && Enabled(s, e) && !e.CreateJob? && !e.DecisionPosted?
    ensures Inv(Apply(s, e))
  {
    var t := Apply(s, e);
    MoverKeepsHandshake(s, e, Moved(s.jobs[e.id], e));
    forall id | id in t.jobs
      ensures JobOk(t.jobs[id]) && HandshakeOk(id, t.jobs[id], t.conflicts)
    {
      if id != e.id {
        assert JobOk(s.jobs[id]) && HandshakeOk(id, s.jobs[id], s.conflicts);
        if e.Asked? || e.AskedAndThrew? {
          OthersKeepHandshake(id, s.jobs[id], s.conflicts, e.conflictId, Conflict(e.id, e.key, None, None));
        }
      }
    }
  }

  lemma CreationKeepsInv(s: System, e: Step)
    requires Inv(s) && Enabled(s, e) && e.CreateJob?
    ensures Inv(Apply(s, e))
  {
    var t := Apply(s, e);
    forall id | id in t.jobs
      ensures JobOk(t.jobs[id]) && HandshakeOk(id, t.jobs[id], t.conflicts)
    {
      if id != e.id {
        assert JobOk(s.jobs[id]) && HandshakeOk(id, s.jobs[id], s.conflicts);
      }
    }
  }

  /** The job that is given its decision. */
  lemma DecidedJobIsOk(j: Job, id: string, conflicts: map<string, Conflict>, c: string, decision: Decision, now: int)
    requires JobOk(j) && HandshakeOk(id, j, conflicts) && j.row.status == AwaitingDecision
    requires c in conflicts && conflicts[c].jobId == id && conflicts[c].decision == None
    ensures WaitsOn(j, c)
    ensures var t := j.(row := j.row.(status := Running));
            var after := conflicts[c := conflicts[c].(decision := Some(decision), decidedAt := Some(now))];
            JobOk(t) && HandshakeOk(id, t, after)
  {
    assert Undecided(conflicts, c);
    var after := conflicts[c := conflicts[c].(decision := Some(decision), decidedAt := Some(now))];
    forall k | Undecided(after, k) && after[k].jobId == id
      ensures false
    {
      assert Undecided(conflicts, k);
    }
  }

  lemma DecisionKeepsInv(s: System, e: Step)
    requires Inv(s) && e.DecisionPosted?
    ensures Inv(Apply(s, e))
  {
    var t := Apply(s, e);
    var row := if e.id in s.jobs then Some(s.jobs[e.id].row) else None;
    if AnswerTo(row, s.conflicts, e.id, e.about, e.decision) == Accepted {
      var c := e.about.value;
      DecidedJobIsOk(s.jobs[e.id], e.id, s.conflicts, c, e.decision.value, e.now);
      forall id | id in t.jobs
        ensures JobOk(t.jobs[id]) && HandshakeOk(id, t.jobs[id], t.conflicts)
      {
        assert JobOk(s.jobs[id]) && HandshakeOk(id, s.jobs[id], s.conflicts);
        if id != e.id {
          OthersKeepHandshake(id, s.jobs[id], s.conflicts, c, t.conflicts[c]);
        }
      }
    }
  }

  lemma StepKeepsInv(s: System, e: Step)
    requires Inv(s)
    ensures Inv(Apply(s, e))
  {
    if Enabled(s, e) {
      if e.CreateJob? {
        CreationKeepsInv(s, e);
      } else if e.DecisionPosted? {
        DecisionKeepsInv(s, e);
      } else {
        WorkerStepKeepsInv(s, e);
      }
    }
  }

  lemma {:induction false} RunKeepsInv(steps: seq<Step>)
    ensures Inv(Run(EMPTY, steps))
  {
    if steps != [] {
      var n := |steps| - 1;
      RunKeepsInv(steps[..n]);
      StepKeepsInv(Run(EMPTY, steps[..n]), steps[n]);
    }
  }

  lemma {:induction false} RunConcat(s: System, a: seq<Step>, b: seq<Step>)
    ensures Run(s, a + b) == Run(Run(s, a), b)
  {
    if b == [] {
      assert a + b == a;
    } else {
      assert (a + b)[..|a + b| - 1] == a + b[..|b| - 1];
      RunConcat(s, a, b[..|b| - 1]);
    }
  }

  lemma {:induction false} LaterKeepsInv(s: System, more: seq<Step>)
    requires Inv(s)
    ensures Inv(Run(s, more))
  {
    if more != [] {
      LaterKeepsInv(s, more[..|more| - 1]);
      StepKeepsInv(Run(s, more[..|more| - 1]), more[|more| - 1]);
    }
  }

  /** A job that exists is touched by its own worker's steps only, and otherwise by decisions. */
  lemma StepTouches(s: System, e: Step, id: string, t: System)
    requires id in s.jobs && !e.DecisionPosted? && t == Apply(s, e)
    ensures id in t.jobs
    ensures if Enabled(s, e) && !e.CreateJob? && e.id == id
            then t.jobs[id] == Moved(s.jobs[id], e)
            else t.jobs[id] == s.jobs[id]
  {
  }

  lemma ConflictsChangeBy(s: System, e: Step)
    ensures var t := Apply(s, e);
            || t.conflicts == s.conflicts
            || (e.DecisionPosted? && t == Decide(s, e.id, e.about, e.decision, e.now))
            || ((e.Asked? || e.AskedAndThrew?) && e.conflictId !in s.conflicts
                && t.conflicts == s.conflicts[e.conflictId := Conflict(e.id, e.key, None, None)])
  {
  }

  /** A decision touches a job in nothing but its status, and only one that awaits it. */
  lemma DecisionOnlyRestarts(s: System, e: Step, id: string, t: System)
    requires id in s.jobs && e.DecisionPosted? && t == Apply(s, e)
    ensures id in t.jobs
    ensures || t.jobs[id] == s.jobs[id]
            || (s.jobs[id].row.status == AwaitingDecision
                && t.jobs[id] == s.jobs[id].(row := s.jobs[id].row.(status := Running)))
  {
  }

  lemma OnlyCreationAdds(s: System, e: Step, id: string, t: System)
    requires id !in s.jobs && t == Apply(s, e)
    ensures id in t.jobs ==> t.jobs[id].events == [] && t.jobs[id].place == Idle
  {
  }
}
