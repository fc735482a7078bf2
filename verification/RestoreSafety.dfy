/** What every run of the restore system keeps. */
module RestoreSafety {
  import opened Common
  import opened RestoreStore
  import opened RestoreEngine
  import opened RestoreLifecycle

  // The handshake between a waiting worker and the decisions endpoint

  /**
   In every reachable state, a job awaits a decision exactly when its worker waits on an undecided conflict, and that
   conflict is then the only undecided one of the job.
   */
  lemma AwaitingExactlyWhenWaiting(steps: seq<Step>, id: string)
    requires id in Run(EMPTY, steps).jobs
    ensures var s := Run(EMPTY, steps); var j := s.jobs[id];
            && (j.row.status == AwaitingDecision <==> exists c :: WaitsOn(j, c) && Undecided(s.conflicts, c))
            && (forall c, d :: WaitsOn(j, c) && Undecided(s.conflicts, d) && s.conflicts[d].jobId == id ==> c == d)
            && (forall c :: WaitsOn(j, c) ==> c in s.conflicts && s.conflicts[c].jobId == id)
  {
    RunKeepsInv(steps);
    var s := Run(EMPTY, steps);
    var j := s.jobs[id];
    assert JobOk(j) && HandshakeOk(id, j, s.conflicts);
    if j.row.status == AwaitingDecision {
      assert WaitsOn(j, j.place.waiting.value);
    }
  }

  /** The endpoint accepts exactly a valid decision about the conflict the job's worker is waiting on. */
  lemma DecisionAcceptedExactly(steps: seq<Step>, id: string, about: Option<string>, decision: Option<Decision>)
    ensures var s := Run(EMPTY, steps);
            var row := if id in s.jobs then Some(s.jobs[id].row) else None;
            AnswerTo(row, s.conflicts, id, about, decision) == Accepted
            <==> && id in s.jobs && about.Some? && about.value != "" && decision.Some?
                 && WaitsOn(s.jobs[id], about.value) && Undecided(s.conflicts, about.value)
  {
    RunKeepsInv(steps);
    var s := Run(EMPTY, steps);
    if id in s.jobs {
      assert HandshakeOk(id, s.jobs[id], s.conflicts);
      if about.Some? && Undecided(s.conflicts, about.value) && s.conflicts[about.value].jobId == id {
        assert JobOk(s.jobs[id]);
      }
    }
  }

  lemma DecisionIsStored(s: System, id: string, c: string, decision: Decision, now: int, t: System)
    requires id in s.jobs && c != "" && WaitsOn(s.jobs[id], c) && Undecided(s.conflicts, c)
    requires s.jobs[id].row.status == AwaitingDecision && s.conflicts[c].jobId == id
    requires t == Apply(s, DecisionPosted(id, Some(c), Some(decision), now))
    ensures id in t.jobs && t.jobs[id].row.status == Running && WaitsOn(t.jobs[id], c)
    ensures c in t.conflicts && t.conflicts[c].decision == Some(decision)
  {
  }

  lemma PollGoesOn(t: System, id: string, c: string)
    requires id in t.jobs && WaitsOn(t.jobs[id], c) && c in t.conflicts && t.conflicts[c].decision.Some?
    ensures Enabled(t, Polled(id))
    ensures Apply(t, Polled(id)).jobs[id].place == t.jobs[id].place.(waiting := None)
  {
  }

  /** An accepted decision is what the waiting handler finds at its next poll, and the job runs on. */
  lemma DecisionReachesWorker(s: System, id: string, c: string, decision: Decision, now: int)
    requires Inv(s) && id in s.jobs && c != "" && WaitsOn(s.jobs[id], c) && Undecided(s.conflicts, c)
    ensures var t := Apply(s, DecisionPosted(id, Some(c), Some(decision), now));
            && id in t.jobs && t.jobs[id].row.status == Running
            && c in t.conflicts && t.conflicts[c].decision == Some(decision)
            && Enabled(t, Polled(id))
            && Apply(t, Polled(id)).jobs[id].place == t.jobs[id].place.(waiting := None)
  {
    assert JobOk(s.jobs[id]) && HandshakeOk(id, s.jobs[id], s.conflicts);
    var t := Apply(s, DecisionPosted(id, Some(c), Some(decision), now));
    DecisionIsStored(s, id, c, decision, now, t);
    PollGoesOn(t, id, c);
  }

  lemma StepKeepsDecisions(s: System, e: Step, c: string)
    requires Inv(s) && c in s.conflicts && s.conflicts[c].decision.Some?
    ensures var t := Apply(s, e); c in t.conflicts && t.conflicts[c] == s.conflicts[c]
  {
    ConflictsChangeBy(s, e);
  }

  lemma {:induction false} DecisionsStay(s: System, more: seq<Step>, c: string)
    requires Inv(s) && c in s.conflicts && s.conflicts[c].decision.Some?
    ensures var t := Run(s, more); c in t.conflicts && t.conflicts[c] == s.conflicts[c]
  {
    if more != [] {
      DecisionsStay(s, more[..|more| - 1], c);
      LaterKeepsInv(s, more[..|more| - 1]);
      StepKeepsDecisions(Run(s, more[..|more| - 1]), more[|more| - 1], c);
    }
  }

  /** A stored decision is never changed, nor its conflict removed. */
  lemma DecisionsAreFinal(steps: seq<Step>, more: seq<Step>, c: string)
    requires c in Run(EMPTY, steps).conflicts && Run(EMPTY, steps).conflicts[c].decision.Some?
    ensures var later := Run(EMPTY, steps + more).conflicts;
            c in later && later[c] == Run(EMPTY, steps).conflicts[c]
  {
    RunKeepsInv(steps);
    RunConcat(EMPTY, steps, more);
    DecisionsStay(Run(EMPTY, steps), more, c);
  }

  // Endings

  /** In every reachable state a job has failed exactly when its row holds a diagnostic. */
  lemma FailedExactlyWithDiagnostic(steps: seq<Step>, id: string)
    requires id in Run(EMPTY, steps).jobs
    ensures var row := Run(EMPTY, steps).jobs[id].row;
            row.status == Failed <==> row.failureDiagnostic.Some?
  {
    RunKeepsInv(steps);
    assert JobOk(Run(EMPTY, steps).jobs[id]);
  }

  /** A job the trash check blocked has failed without a phase having begun. */
  lemma BlockedJobRestoresNothing(steps: seq<Step>, id: string)
    requires id in Run(EMPTY, steps).jobs && Run(EMPTY, steps).jobs[id].row.trashWindowBlocked
    ensures var j := Run(EMPTY, steps).jobs[id];
            j.row.status == Failed && j.row.phaseProgress == [] && Transitions(j.events) == []
  {
    RunKeepsInv(steps);
    var j := Run(EMPTY, steps).jobs[id];
    assert JobOk(j);
    assert j.row.phaseProgress == [];
  }

  /**
   Over all interleavings, what a job has announced, stored and counted agrees: the phases announced are the first
   ones in order, all but the last of them finished, the others untouched, and its error count is the sum over the
   phases that did not fail.
   */
  lemma BooksAgreeAlways(steps: seq<Step>, id: string)
    requires id in Run(EMPTY, steps).jobs
    ensures var j := Run(EMPTY, steps).jobs[id];
            Untouched(j.row, j.events) || BooksOk(j.row, j.events, j.config.handlers)
  {
    RunKeepsInv(steps);
    assert JobOk(Run(EMPTY, steps).jobs[id]);
  }

  /** A job that completed finished all its phases, and completed without errors exactly when none was counted. */
  lemma CompletedMeansAllFinished(steps: seq<Step>, id: string)
    requires id in Run(EMPTY, steps).jobs
    requires var status := Run(EMPTY, steps).jobs[id].row.status; status == Completed || status == CompletedWithErrors
    ensures var row := Run(EMPTY, steps).jobs[id].row;
            && (forall k :: 0 <= k < |row.phaseProgress| ==> Finished(row.phaseProgress[k].status))
            && (row.status == Completed <==> CountedErrors(row.phaseProgress) == 0)
  {
    RunKeepsInv(steps);
    var j := Run(EMPTY, steps).jobs[id];
    assert JobOk(j);
  }

  // Progress

  /** A step the worker can take where it is; the outcome does not matter. */
  function OwnStep(id: string, place: Place): Step {
    match place
    case Idle => StartWorker(id, 0, [])
    case CheckingTrash => TrashThrew(id)
    case InPhase(_, _, None) => HandlerEnded(id, HandlerThrew, 0, [])
    case InPhase(_, _, Some(_)) => Polled(id)
    case EngineLeft(_) => EngineResumed(id, 0, [])
    case Downloading => DownloadThrew(id, 0, [])
    case _ => RejectionCaught(id, 0)
  }

  lemma OwnStepIsReady(id: string, j: Job, conflicts: map<string, Conflict>)
    requires JobOk(j) && HandshakeOk(id, j, conflicts) && !j.place.Ended? && !j.place.RouterFailed?
    ensures Ready(j, OwnStep(id, j.place))
    ensures ConflictsAllow(j, OwnStep(id, j.place), conflicts) || j.row.status == AwaitingDecision
  {
  }

  /** A worker that has not ended can go on by itself, unless its job awaits a decision, which then can be posted. */
  lemma WorkerIsNeverStuck(steps: seq<Step>, id: string)
    requires id in Run(EMPTY, steps).jobs
    ensures var s := Run(EMPTY, steps); var j := s.jobs[id];
            || j.place.Ended? || j.place.RouterFailed?
            || Enabled(s, OwnStep(id, j.place))
            || (j.row.status == AwaitingDecision && exists c :: WaitsOn(j, c) && Undecided(s.conflicts, c))
  {
    RunKeepsInv(steps);
    var s := Run(EMPTY, steps);
    var j := s.jobs[id];
    assert JobOk(j) && HandshakeOk(id, j, s.conflicts);
    if !j.place.Ended? && !j.place.RouterFailed? {
      OwnStepIsReady(id, j, s.conflicts);
      if j.row.status == AwaitingDecision {
        AwaitingExactlyWhenWaiting(steps, id);
      }
    }
  }

  // Heartbeats

  predicate Distinct(handlers: seq<Phase>) {
    forall i, j :: 0 <= i < j < |handlers| ==> handlers[i] != handlers[j]
  }

  lemma DefaultHandlersAreDistinct()
    ensures Distinct(DEFAULT_HANDLERS)
  {
  }

  lemma {:induction false} ProgressOfPhase(row: RestoreJob, progress: seq<PhaseProgress>, i: nat)
    requires i < |progress| && row.currentPhase == Some(progress[i].phase)
    requires forall k :: 0 <= k < i ==> progress[k].phase != progress[i].phase
    ensures ProgressOf(row, progress) == Some(progress[i])
  {
    if i > 0 {
      assert progress[1..][i - 1] == progress[i];
      ProgressOfPhase(row, progress[1..], i - 1);
    }
  }

  lemma HeartbeatInPhase(j: Job, row: RestoreJob)
    requires j.place.InPhase? && EngineOk(j) && Distinct(j.config.handlers)
    requires row.phaseProgress == j.row.phaseProgress && row.currentPhase == j.row.currentPhase
    requires row.errorCount == j.row.errorCount
    ensures j.place.i < |j.config.handlers|
    ensures HeartbeatEvent(row) == Heartbeat(Some(j.config.handlers[j.place.i]), Some(0), Some(0), j.row.errorCount)
  {
    ProgressOfPhase(row, row.phaseProgress, j.place.i);
  }

  /**
   A heartbeat names the phase that is running, but the items it reports are those stored when the phase began: none,
   out of none, for as long as the phase runs.
   */
  lemma HeartbeatsReportNoItems(steps: seq<Step>, id: string, now: int, j: Job)
    requires id in Run(EMPTY, steps).jobs && j == Run(EMPTY, steps).jobs[id] && j.place.InPhase?
    requires Distinct(j.config.handlers)
    ensures j.place.i < |j.config.handlers| && j.timers
    ensures Beat(j, now).events
            == j.events + [Heartbeat(Some(j.config.handlers[j.place.i]), Some(0), Some(0), j.row.errorCount)]
  {
    RunKeepsInv(steps);
    assert JobOk(j);
    HeartbeatInPhase(j, HeartbeatRow(j.row, now));
  }
}
