/**
 Restore jobs: their types (src/restore/types.ts), the tables and the download map (src/restore/RestoreJobStore.ts)
 and the event bus (src/restore/RestoreEventBus.ts). Times are milliseconds; an event carries what distinguishes it,
 without its job id and time.
 */
module RestoreStore {
  import opened Common

  datatype ConflictMode = OverrideExisting | SkipExisting | Ask

  datatype Decision = Override | Skip

  datatype JobStatus = Pending | Running | AwaitingDecision | Completed | CompletedWithErrors | Failed

  datatype Phase =
    | ProjectPhase
    | WorkflowPhase
    | CustomFieldPhase
    | BoardPhase
    | SprintPhase
    | IssueBodyPhase
    | PostIssuePhase

  datatype Scope = All | Projects(projectKeys: seq<string>) | Issues(issueKeys: seq<string>)

  datatype Destination = Original | Alternate(targetProjectKey: string) | Export

  datatype PhaseStatus = PhasePending | PhaseRunning | PhaseCompleted | PhaseCompletedWithErrors | PhaseFailed

  datatype PhaseProgress = PhaseProgress(
    phase: Phase,
    status: PhaseStatus,
    total: nat,
    processed: nat,
    errorCount: nat,
    startedAt: Option<int>,
    completedAt: Option<int>)

  datatype Diagnostic =
    | ByHandler(text: string)
    | ProjectWriteFailed
    | UnhandledPhaseError
    | PhaseFailedBy(phase: Phase)
    | TrashWindowBlock
    | BrowserDownloadFailed
    | WorkerError

  datatype RestoreJob = RestoreJob(
    scope: Scope,
    destination: Destination,
    conflictMode: ConflictMode,
    status: JobStatus,
    currentPhase: Option<Phase>,
    phaseProgress: seq<PhaseProgress>,
    errorCount: nat,
    failureDiagnostic: Option<Diagnostic>,
    adfMediaWarningEmitted: bool,
    adfMediaWarnings: seq<string>,
    trashWindowBlocked: bool,
    lastHeartbeatAt: Option<int>,
    stalled: bool,
    completedAt: Option<int>)

  datatype Conflict = Conflict(jobId: string, objectKey: string, decision: Option<Decision>, decidedAt: Option<int>)

  datatype Event =
    | Heartbeat(current: Option<Phase>, processed: Option<nat>, total: Option<nat>, errorCount: nat)
    | StalledEvent(lastHeartbeatAgeMs: int)
    | PhaseTransition(phase: Phase)
    | ConflictDecisionRequired(conflictId: string, objectKey: string)
    | PhaseFailure(phase: Phase, diagnostic: Diagnostic)
    | AdfMediaWarning(issueIds: seq<string>)
    | Complete(status: JobStatus)

  // Row updates, one per statement of the store

  function NewJob(scope: Scope, destination: Destination, mode: ConflictMode): RestoreJob {
    RestoreJob(scope, destination, mode, Pending, None, [], 0, None, false, [], false, None, false, None)
  }

  function FailedRow(row: RestoreJob, diagnostic: Diagnostic, now: int): RestoreJob {
    row.(status := Failed, failureDiagnostic := Some(diagnostic), stalled := false, completedAt := Some(now))
  }

  /** Unlike any other failure, this one sets no completion time and leaves `stalled` alone. */
  function TrashBlockedRow(row: RestoreJob): RestoreJob {
    row.(trashWindowBlocked := true, status := Failed, failureDiagnostic := Some(TrashWindowBlock))
  }

  function CompletedRow(row: RestoreJob, status: JobStatus, now: int): RestoreJob {
    row.(status := status, stalled := false, completedAt := Some(now))
  }

  function HeartbeatRow(row: RestoreJob, now: int): RestoreJob {
    row.(lastHeartbeatAt := Some(now), stalled := false)
  }

  function WarnedRow(row: RestoreJob, issueIds: seq<string>): RestoreJob {
    row.(adfMediaWarningEmitted := true, adfMediaWarnings := issueIds)
  }

  type Jobs = map<string, RestoreJob>

  /** Updating a row that does not exist changes nothing. */
  class RestoreJobStore {
    var jobs: Jobs
    var conflicts: map<string, Conflict>
    var downloadPaths: map<string, string>

    constructor ()
      ensures jobs == map[] && conflicts == map[] && downloadPaths == map[]
    {
      jobs := map[];
      conflicts := map[];
      downloadPaths := map[];
    }

    /** Fails, as the insert does, when the id is taken. */
    method CreateJob(id: string, scope: Scope, destination: Destination, mode: ConflictMode) returns (ok: bool)
      modifies this`jobs
      ensures ok <==> id !in old(jobs)
      ensures jobs == if ok then old(jobs)[id := NewJob(scope, destination, mode)] else old(jobs)
    {
      if id in jobs {
        return false;
      }
      jobs := jobs[id := RestoreJob(scope, destination, mode, Pending, None, [], 0, None, false, [], false, None, false,
                                    None)];
      ok := true;
    }

    method GetJob(id: string) returns (job: Option<RestoreJob>)
      ensures job == if id in jobs then Some(jobs[id]) else None
    {
      job := if id in jobs then Some(jobs[id]) else None;
    }

    method SetStatus(id: string, status: JobStatus)
      modifies this`jobs
      ensures jobs == if id in old(jobs) then old(jobs)[id := old(jobs)[id].(status := status)] else old(jobs)
    {
      if id in jobs {
        jobs := jobs[id := jobs[id].(status := status)];
      }
    }

    method SetCurrentPhase(id: string, phase: Option<Phase>)
      modifies this`jobs
      ensures jobs == if id in old(jobs) then old(jobs)[id := old(jobs)[id].(currentPhase := phase)] else old(jobs)
    {
      if id in jobs {
        jobs := jobs[id := jobs[id].(currentPhase := phase)];
      }
    }

    method UpdatePhaseProgress(id: string, progress: seq<PhaseProgress>)
      modifies this`jobs
      ensures jobs == if id in old(jobs) then old(jobs)[id := old(jobs)[id].(phaseProgress := progress)] else old(jobs)
    {
      if id in jobs {
        jobs := jobs[id := jobs[id].(phaseProgress := progress)];
      }
    }

    method UpdateHeartbeat(id: string, now: int)
      modifies this`jobs
      ensures jobs == if id in old(jobs) then old(jobs)[id := HeartbeatRow(old(jobs)[id], now)] else old(jobs)
    {
      if id in jobs {
        jobs := jobs[id := jobs[id].(lastHeartbeatAt := Some(now), stalled := false)];
      }
    }

    method SetStalled(id: string, stalled: bool)
      modifies this`jobs
      ensures jobs == if id in old(jobs) then old(jobs)[id := old(jobs)[id].(stalled := stalled)] else old(jobs)
    {
      if id in jobs {
        jobs := jobs[id := jobs[id].(stalled := stalled)];
      }
    }

    method SetFailed(id: string, diagnostic: Diagnostic, now: int)
      modifies this`jobs
      ensures jobs == if id in old(jobs) then old(jobs)[id := FailedRow(old(jobs)[id], diagnostic, now)] else old(jobs)
    {
      if id in jobs {
        jobs := jobs[id := jobs[id].(status := Failed, failureDiagnostic := Some(diagnostic), stalled := false,
                                     completedAt := Some(now))];
      }
    }

    method SetTrashWindowBlocked(id: string)
      modifies this`jobs
      ensures jobs == if id in old(jobs) then old(jobs)[id := TrashBlockedRow(old(jobs)[id])] else old(jobs)
    {
      if id in jobs {
        jobs := jobs[id := jobs[id].(trashWindowBlocked := true, status := Failed,
                                     failureDiagnostic := Some(TrashWindowBlock))];
      }
    }

    method CompleteJob(id: string, status: JobStatus, now: int)
      requires status == Completed || status == CompletedWithErrors
      modifies this`jobs
      ensures jobs == if id in old(jobs) then old(jobs)[id := CompletedRow(old(jobs)[id], status, now)] else old(jobs)
    {
      if id in jobs {
        jobs := jobs[id := jobs[id].(status := status, stalled := false, completedAt := Some(now))];
      }
    }

    method IncrementErrorCount(id: string)
      modifies this`jobs
      ensures jobs == if id in old(jobs)
                      then old(jobs)[id := old(jobs)[id].(errorCount := old(jobs)[id].errorCount + 1)] else old(jobs)
    {
      if id in jobs {
        jobs := jobs[id := jobs[id].(errorCount := jobs[id].errorCount + 1)];
      }
    }

    method SetAdfMediaWarnings(id: string, issueIds: seq<string>)
      modifies this`jobs
      ensures jobs == if id in old(jobs) then old(jobs)[id := WarnedRow(old(jobs)[id], issueIds)] else old(jobs)
    {
      if id in jobs {
        jobs := jobs[id := jobs[id].(adfMediaWarningEmitted := true, adfMediaWarnings := issueIds)];
      }
    }

    method SetDownloadPath(id: string, path: string)
      modifies this`downloadPaths
      ensures downloadPaths == old(downloadPaths)[id := path]
    {
      downloadPaths := downloadPaths[id := path];
    }

    /** Fails, as the insert does, when the id is taken. */
    method InsertConflict(conflictId: string, jobId: string, objectKey: string) returns (ok: bool)
      modifies this`conflicts
      ensures ok <==> conflictId !in old(conflicts)
      ensures conflicts == if ok then old(conflicts)[conflictId := Conflict(jobId, objectKey, None, None)]
                           else old(conflicts)
    {
      if conflictId in conflicts {
        return false;
      }
      conflicts := conflicts[conflictId := Conflict(jobId, objectKey, None, None)];
      ok := true;
    }

    method GetConflict(conflictId: string) returns (conflict: Option<Conflict>)
      ensures conflict == if conflictId in conflicts then Some(conflicts[conflictId]) else None
    {
      conflict := if conflictId in conflicts then Some(conflicts[conflictId]) else None;
    }

    method ResolveConflict(conflictId: string, decision: Decision, now: int)
      modifies this`conflicts
      ensures conflicts == if conflictId in old(conflicts)
                           then old(conflicts)[conflictId := old(conflicts)[conflictId].(decision := Some(decision),
                                                                                         decidedAt := Some(now))]
                           else old(conflicts)
    {
      if conflictId in conflicts {
        conflicts := conflicts[conflictId :=
                               conflicts[conflictId].(decision := Some(decision), decidedAt := Some(now))];
      }
    }
  }

  type Channels = map<string, seq<Event>>

  /** All rows, and the channels of the other jobs: what a step of one job is compared with. */
  datatype Surroundings = Surroundings(jobs: Jobs, elsewhere: Channels)

  /** What was published on the channel of each job. */
  class RestoreEventBus {
    var published: Channels

    constructor ()
      ensures published == map[]
    {
      published := map[];
    }

    function Channel(jobId: string): seq<Event>
      reads this
    {
      if jobId in published then published[jobId] else []
    }

    /** Every channel but one. */
    ghost function Elsewhere(jobId: string): Channels
      reads this
    {
      published - {jobId}
    }

    method Publish(jobId: string, event: Event)
      modifies this
      ensures published == old(published)[jobId := old(Channel(jobId)) + [event]]
      ensures Channel(jobId) == old(Channel(jobId)) + [event] && Elsewhere(jobId) == old(Elsewhere(jobId))
    {
      published := published[jobId := Channel(jobId) + [event]];
    }
  }
}
