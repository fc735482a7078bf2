/**
 Restore jobs told from the steps of a run: what each step of a worker writes to the row and announces, how long a job
 has been silent when a stall is announced, and what the decisions endpoint answers.
 */
module RestoreHistory {
  import opened Common
  import opened RestoreStore
  import opened RestoreEngine
  import opened RestoreLifecycle
  import opened RestoreSignals

  // What one step does

  /** A new job is pending, with a worker that has not started. */
  lemma NewJobIs(s: System, e: Step, t: System)
    requires e.CreateJob? && e.id !in s.jobs && t == Apply(s, e)
    ensures t.jobs.Keys == s.jobs.Keys + {e.id} && t.conflicts == s.conflicts && t.downloadPaths == s.downloadPaths
    ensures var j := t.jobs[e.id];
            && j.config == e.config && j.place == Idle && !j.timers && !j.stalled && j.events == []
            && j.row.scope == e.scope && j.row.destination == e.destination && j.row.conflictMode == e.mode
            && j.row.status == Pending && j.row.currentPhase == None && j.row.phaseProgress == []
            && j.row.errorCount == 0 && j.row.failureDiagnostic == None && !j.row.trashWindowBlocked
            && !j.row.adfMediaWarningEmitted && j.row.adfMediaWarnings == [] && j.row.lastHeartbeatAt == None
            && !j.row.stalled && j.row.completedAt == None
  {
  }

  /** The row of a job whose worker starts at `now`. */
  function RunningRow(row: RestoreJob, now: int): RestoreJob {
    row.(status := Running, lastHeartbeatAt := Some(now), stalled := false)
  }

  /**
   A worker starts with both timers armed. It asks about the trash exactly for projects to be restored on the original
   site, if it was given a checker; an export is assembled; anything else begins with the first phase.
   */
  lemma StartLeadsTo(j: Job, e: Step, t: Job)
    requires j.place == Idle && e.StartWorker? && t == Moved(j, e)
    ensures var asks := j.config.checksTrash && j.row.destination == Original && j.row.scope.Projects?;
            && t.timers && t.lastHeartbeatAt == e.now && t.config == j.config && t.stalled == j.stalled
            && (asks ==> t.place == CheckingTrash && t.row == RunningRow(j.row, e.now) && t.events == j.events)
            && (!asks && j.row.destination == Export ==>
                  t.place == Downloading && t.row == RunningRow(j.row, e.now) && t.events == j.events)
            && (!asks && j.row.destination != Export && j.config.handlers != [] && e.throwing == [] ==>
                  && t.place == InPhase(0, 0, None) && t.row.currentPhase == Some(j.config.handlers[0])
                  && t.events == j.events + [PhaseTransition(j.config.handlers[0])])
  {
  }

  /** Where the engine stands, as the worker sees it. */
  predicate StandsAt(place: Place, at: Position) {
    match at
    case AwaitingHandler(i, totalErrors) => place == InPhase(i, totalErrors, None)
    case _ => place == EngineLeft(at)
  }

  /** The job has what the engine left: the row, the events, and the place to go on from. */
  predicate Has(j: Job, x: Execution) {
    j.row == x.row && j.events == x.events && StandsAt(j.place, x.at)
  }

  /** The engine begins once nothing stands before it: at the start, or when the project was not in the trash. */
  lemma EngineBegins(j: Job, e: Step, t: Job)
    requires Ready(j, e) && t == Moved(j, e) && j.row.destination != Export
    ensures e.StartWorker? && t.place != CheckingTrash ==>
              Has(t, Start(RunningRow(j.row, e.now), j.events, j.config.handlers, e.now,
                           e.throwing != [] && e.throwing[0]))
    ensures e.TrashAnswered? && !e.blocked ==>
              && Has(t, Start(j.row, j.events, j.config.handlers, e.now, e.throwing != [] && e.throwing[0]))
              && t.timers == j.timers && t.lastHeartbeatAt == j.lastHeartbeatAt && t.stalled == j.stalled
  {
  }

  /** And it takes the outcome of a handler, which has failed if a subscriber threw at its question. */
  lemma EngineGoesOn(j: Job, e: Step, t: Job)
    requires Ready(j, e) && (e.HandlerEnded? || e.AskedAndThrew?) && t == Moved(j, e)
    ensures var handlers, i, errors := j.config.handlers, j.place.i, j.place.totalErrors;
            && (e.HandlerEnded? ==>
                  Has(t, EndPhase(j.row, j.events, handlers, i, errors, e.outcome, e.now, e.throwing)))
            && (e.AskedAndThrew? ==>
                  var failure := PhaseResult(PhaseFailed, e.processed, e.total, 1, Some(ProjectWriteFailed), []);
                  Has(t, EndPhase(j.row.(status := AwaitingDecision),
                                  j.events + [ConflictDecisionRequired(e.conflictId, e.key)], handlers, i, errors,
                                  Returned(failure), e.now, e.throwing)))
    ensures t.timers == j.timers && t.lastHeartbeatAt == j.lastHeartbeatAt && t.stalled == j.stalled
  {
  }

  /** What ends a job without its phases: a project in the trash, a checker that throws, or a caught rejection. */
  lemma EndingsWithoutPhases(j: Job, e: Step, t: Job)
    requires Ready(j, e) && t == Moved(j, e)
    ensures e.TrashAnswered? && e.blocked ==>
              && t.row == j.row.(status := Failed, failureDiagnostic := Some(TrashWindowBlock),
                                 trashWindowBlocked := true)
              && t.events == j.events + [Complete(Failed)] && !t.timers
              && t.place == if e.throwing != [] && e.throwing[0] then Failing else Ended
    ensures e.TrashThrew? ==> t.row == j.row && t.events == j.events && !t.timers && t.place == Failing
    ensures e.RejectionCaught? ==>
              && t.row == j.row.(status := Failed, failureDiagnostic := Some(WorkerError), stalled := false,
                                 completedAt := Some(e.now))
              && t.events == j.events && t.place == RouterFailed
  {
  }

  /** How a job ends after its phases: as the engine says, announced after the row is written. */
  lemma EndingsAfterPhases(j: Job, e: Step, t: Job)
    requires Ready(j, e) && e.EngineResumed? && t == Moved(j, e)
    ensures !t.timers
    ensures var how, left := j.place.how, if e.throwing != [] && e.throwing[0] then Failing else Ended;
            && (how == Done(EngineCompleted) ==>
                  && t.row == j.row.(status := Completed, stalled := false, completedAt := Some(e.now),
                                     currentPhase := None)
                  && t.events == j.events + [Complete(Completed)] && t.place == left)
            && (how.Done? && how.outcome.EngineCompletedWithErrors? ==>
                  && t.row == j.row.(status := CompletedWithErrors, stalled := false, completedAt := Some(e.now),
                                     currentPhase := None)
                  && t.events == j.events + [Complete(CompletedWithErrors)] && t.place == left)
            && (how.Done? && how.outcome.EngineFailed? ==>
                  t.row == j.row && t.events == j.events + [Complete(Failed)] && t.place == left)
            && (!how.Done? ==> t.row == j.row && t.events == j.events && t.place == Failing)
  {
  }

  /** How an export ends: with a stored archive, or failed, as it is by a throw at the archive's announcement. */
  lemma EndingsOfExports(j: Job, e: Step, t: Job)
    requires Ready(j, e) && (e.Downloaded? || e.DownloadThrew?) && t == Moved(j, e)
    ensures !t.timers
    ensures var failed := j.row.(status := Failed, failureDiagnostic := Some(BrowserDownloadFailed), stalled := false,
                                 completedAt := Some(e.now));
            && (e.Downloaded? && !(e.throwing != [] && e.throwing[0]) ==>
                  && t.row == j.row.(status := Completed, stalled := false, completedAt := Some(e.now))
                  && t.events == j.events + [Complete(Completed)] && t.place == Ended)
            && (e.Downloaded? && e.throwing != [] && e.throwing[0] ==>
                  && t.row == failed && t.events == j.events + [Complete(Completed), Complete(Failed)]
                  && t.place == if |e.throwing| > 1 && e.throwing[1] then Failing else Ended)
            && (e.DownloadThrew? ==>
                  && t.row == failed && t.events == j.events + [Complete(Failed)]
                  && t.place == if e.throwing != [] && e.throwing[0] then Failing else Ended)
  {
  }

  /** A question makes its job wait for it, and the poll that finds the decision makes it run on. */
  lemma QuestionsSuspend(j: Job, e: Step, t: Job)
    requires Ready(j, e) && (e.Asked? || e.Polled?) && t == Moved(j, e)
    ensures e.Asked? ==>
              && t.row == j.row.(status := AwaitingDecision) && t.place == j.place.(waiting := Some(e.conflictId))
              && t.events == j.events + [ConflictDecisionRequired(e.conflictId, e.key)]
    ensures e.Polled? ==>
              t.row == j.row.(status := Running) && t.place == j.place.(waiting := None) && t.events == j.events
    ensures t.timers == j.timers && t.stalled == j.stalled && t.lastHeartbeatAt == j.lastHeartbeatAt
  {
  }

  // What the timers do

  /** The progress stored of the phase that is current. */
  predicate IsCurrent(row: RestoreJob, p: PhaseProgress) {
    p in row.phaseProgress && row.currentPhase == Some(p.phase)
  }

  lemma {:induction false} ProgressFound(row: RestoreJob, progress: seq<PhaseProgress>)
    ensures var found := ProgressOf(row, progress);
            && (found.Some? ==> found.value in progress && row.currentPhase == Some(found.value.phase))
            && (found == None ==> forall p :: p in progress ==> row.currentPhase != Some(p.phase))
  {
    if progress != [] {
      ProgressFound(row, progress[1..]);
    }
  }

  /** A heartbeat stores its time, clears the stall and reports the current phase with its stored counts. */
  lemma HeartbeatReports(j: Job, e: Step, t: Job)
    requires e.HeartbeatTick? && j.timers && t == Moved(j, e)
    ensures t.row == j.row.(lastHeartbeatAt := Some(e.now), stalled := false)
    ensures t.lastHeartbeatAt == e.now && !t.stalled && t.place == j.place && t.timers
    ensures |t.events| == |j.events| + 1 && t.events[..|j.events|] == j.events
    ensures var event := t.events[|j.events|];
            && event.Heartbeat? && event.current == j.row.currentPhase && event.errorCount == j.row.errorCount
            && (event.processed.Some? <==> event.total.Some?)
            && (event.processed.Some? <==> exists p :: IsCurrent(j.row, p))
            && (event.processed.Some? ==>
                  exists p ::
                    IsCurrent(j.row, p) && event.processed == Some(p.processed) && event.total == Some(p.total))
  {
    ProgressFound(t.row, t.row.phaseProgress);
    var found := ProgressOf(t.row, t.row.phaseProgress);
    if found.Some? {
      assert IsCurrent(j.row, found.value);
    }
  }

  // What the steps of a run say

  /** The step was one of the worker's or the timers', at a point where it could happen. */
  predicate Acts(s: System, e: Step, id: string) {
    Enabled(s, e) && !e.CreateJob? && !e.DecisionPosted? && e.id == id
  }

  /** When the worker last started or its heartbeat ticked. */
  function LastBeat(steps: seq<Step>, id: string): int {
    if steps == [] then 0
    else
      var before, e := steps[..|steps| - 1], steps[|steps| - 1];
      if Acts(Run(EMPTY, before), e, id) && (e.StartWorker? || e.HeartbeatTick?) then e.now else LastBeat(before, id)
  }

  lemma OneMoreStep(steps: seq<Step>, e: Step, all: seq<Step>)
    requires all == steps + [e]
    ensures Run(EMPTY, all) == Apply(Run(EMPTY, steps), e)
  {
    assert all[..|steps|] == steps;
  }

  /** Only a start and a heartbeat change when the worker was last heard of. */
  lemma WhenHeardOf(j: Job, e: Step, t: Job)
    requires Ready(j, e) && t == Moved(j, e)
    ensures t.lastHeartbeatAt == if e.StartWorker? || e.HeartbeatTick? then e.now else j.lastHeartbeatAt
  {
  }

  lemma StepKeepsTime(s: System, e: Step, id: string, t: System)
    requires t == Apply(s, e) && id in t.jobs
    ensures id in s.jobs ==>
              t.jobs[id].lastHeartbeatAt
              == if Acts(s, e, id) && (e.StartWorker? || e.HeartbeatTick?) then e.now else s.jobs[id].lastHeartbeatAt
    ensures id !in s.jobs ==> t.jobs[id].lastHeartbeatAt == 0
  {
    if id in s.jobs {
      if e.DecisionPosted? {
        DecisionOnlyRestarts(s, e, id, t);
      } else {
        StepTouches(s, e, id, t);
        if Acts(s, e, id) {
          WhenHeardOf(s.jobs[id], e, t.jobs[id]);
        }
      }
    }
  }

  lemma {:induction false} HeardOfLast(steps: seq<Step>, id: string)
    ensures id in Run(EMPTY, steps).jobs ==> Run(EMPTY, steps).jobs[id].lastHeartbeatAt == LastBeat(steps, id)
    ensures id !in Run(EMPTY, steps).jobs ==> LastBeat(steps, id) == 0
  {
    if steps != [] {
      var n := |steps| - 1;
      HeardOfLast(steps[..n], id);
      if id in Run(EMPTY, steps[..n]).jobs {
        StepKeepsJobs(Run(EMPTY, steps[..n]), steps[n], id);
      }
      if id in Run(EMPTY, steps).jobs {
        StepKeepsTime(Run(EMPTY, steps[..n]), steps[n], id, Run(EMPTY, steps));
      }
    }
  }

  lemma StepKeepsJobs(s: System, e: Step, id: string)
    requires id in s.jobs
    ensures id in Apply(s, e).jobs
  {
  }

  /** What the tick of the stall timer does. */
  lemma StallTickDoes(j: Job, e: Step, t: Job)
    requires e.StallTick? && j.timers && t == Moved(j, e)
    ensures var age := e.now - j.lastHeartbeatAt;
            var stalls := age > j.config.staleThresholdMs && !j.stalled;
            && t.events == (if stalls then j.events + [StalledEvent(age)] else j.events)
            && t.row == (if stalls then j.row.(stalled := true) else j.row) && t.stalled == (j.stalled || stalls)
            && t.place == j.place && t.timers
  {
  }

  lemma StalledAsAnnounced(steps: seq<Step>, id: string, j: Job)
    requires id in Run(EMPTY, steps).jobs && j == Run(EMPTY, steps).jobs[id]
    ensures j.stalled <==> StalledNow(j.events)
  {
    SignalsFitAlways(steps, id);
  }

  lemma StallStep(s: System, e: Step, id: string, t: System, heard: int)
    requires e.StallTick? && e.id == id && id in s.jobs && s.jobs[id].timers && t == Apply(s, e)
    requires s.jobs[id].lastHeartbeatAt == heard && (s.jobs[id].stalled <==> StalledNow(s.jobs[id].events))
    ensures id in t.jobs
    ensures var j := s.jobs[id];
            var stalls := e.now - heard > j.config.staleThresholdMs && !StalledNow(j.events);
            && t.jobs[id].events == (if stalls then j.events + [StalledEvent(e.now - heard)] else j.events)
            && (t.jobs[id].row.stalled <==> j.row.stalled || stalls)
  {
    StepTouches(s, e, id, t);
    StallTickDoes(s.jobs[id], e, t.jobs[id]);
  }

  /**
   Over every run: a tick of the stall timer announces a stall exactly when none has been announced since the last
   heartbeat and the worker's start or last heartbeat is longer ago than the threshold, and it says how long.
   */
  lemma StallIsAnnouncedExactly(steps: seq<Step>, id: string, now: int, s: System, t: System)
    requires s == Run(EMPTY, steps) && t == Run(EMPTY, steps + [StallTick(id, now)])
    requires id in s.jobs && s.jobs[id].timers
    ensures id in t.jobs
    ensures var j, age := s.jobs[id], now - LastBeat(steps, id);
            var stalls := age > j.config.staleThresholdMs && !StalledNow(j.events);
            && t.jobs[id].events == (if stalls then j.events + [StalledEvent(age)] else j.events)
            && (t.jobs[id].row.stalled <==> j.row.stalled || stalls)
  {
    var e := StallTick(id, now);
    HeardOfLast(steps, id);
    StalledAsAnnounced(steps, id, s.jobs[id]);
    OneMoreStep(steps, e, steps + [e]);
    StallStep(s, e, id, t, LastBeat(steps, id));
  }

  /** In every reachable state the timers run exactly from the start of the worker until it has ended or failed. */
  lemma TimersRunExactly(steps: seq<Step>, id: string)
    requires id in Run(EMPTY, steps).jobs
    ensures var j := Run(EMPTY, steps).jobs[id];
            j.timers <==> j.place.CheckingTrash? || j.place.InPhase? || j.place.EngineLeft? || j.place.Downloading?
  {
    RunKeepsInv(steps);
    assert JobOk(Run(EMPTY, steps).jobs[id]);
  }

  /** The archive of the last download of the job, if there was one. */
  function LastArchive(steps: seq<Step>, id: string): Option<string> {
    if steps == [] then None
    else
      var before, e := steps[..|steps| - 1], steps[|steps| - 1];
      if Acts(Run(EMPTY, before), e, id) && e.Downloaded? then Some(e.path) else LastArchive(before, id)
  }

  lemma {:induction false} ArchiveIsKept(steps: seq<Step>, id: string)
    ensures var paths := Run(EMPTY, steps).downloadPaths;
            (if id in paths then Some(paths[id]) else None) == LastArchive(steps, id)
  {
    if steps != [] {
      ArchiveIsKept(steps[..|steps| - 1], id);
    }
  }

  // The decisions endpoint

  /** What the endpoint answers, in the order in which it looks: the job, its status, the request, the conflict. */
  lemma AnswerMeans(row: Option<RestoreJob>, conflicts: map<string, Conflict>, id: string, about: Option<string>,
                    decision: Option<Decision>)
    ensures var answer := AnswerTo(row, conflicts, id, about, decision);
            var waits := row.Some? && row.value.status == AwaitingDecision;
            var proper := about.Some? && about.value != "" && decision.Some?;
            var known := proper && about.value in conflicts && conflicts[about.value].jobId == id;
            && (answer == JobNotFound <==> row == None)
            && (answer == InvalidState <==> row.Some? && !waits)
            && (answer == InvalidRequest <==> waits && !proper)
            && (answer == ConflictNotFound <==> waits && proper && !known)
            && (answer == AlreadyResolved <==> waits && known && conflicts[about.value].decision.Some?)
            && (answer == Accepted <==> waits && known && conflicts[about.value].decision == None)
  {
  }

  /** An accepted decision is stored with its time on the conflict, and its job runs; any other changes nothing. */
  lemma DecisionChanges(s: System, e: Step, t: System)
    requires e.DecisionPosted? && t == Apply(s, e)
    ensures var row := if e.id in s.jobs then Some(s.jobs[e.id].row) else None;
            if AnswerTo(row, s.conflicts, e.id, e.about, e.decision) == Accepted
            then && t.jobs == s.jobs[e.id := s.jobs[e.id].(row := s.jobs[e.id].row.(status := Running))]
                 && t.conflicts == s.conflicts[e.about.value := Conflict(e.id, s.conflicts[e.about.value].objectKey,
                                                                         e.decision, Some(e.now))]
                 && t.downloadPaths == s.downloadPaths
            else t == s
  {
  }

  /** A question stores an undecided conflict of its job, about its project. */
  lemma QuestionIsStored(s: System, e: Step, t: System)
    requires (e.Asked? || e.AskedAndThrew?) && Enabled(s, e) && t == Apply(s, e)
    ensures e.conflictId !in s.conflicts
    ensures t.conflicts == s.conflicts[e.conflictId := Conflict(e.id, e.key, None, None)]
  {
  }
}
