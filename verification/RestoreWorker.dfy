/**
 The worker of one restore job (src/restore/RestoreWorker.ts) and the two handlers of the router that touch the same
 rows (src/restore/RestoreJobRouter.ts). The methods of the worker are the stretches of `run` and
 `runBrowserDownload` between two awaits and the callbacks of the two timers; each takes one step of the life cycle.
 */
module RestoreWorker {
  import opened Common
  import opened RestoreStore
  import opened RestoreEngine
  import opened RestoreLifecycle

  class RestoreWorker {
    const jobId: string
    const config: Config
    const store: RestoreJobStore
    const bus: RestoreEventBus
    const engine: RestoreEngine
    var place: Place
    var heartbeatTimer: bool
    var stalledCheckTimer: bool
    var lastHeartbeatAt: int
    var stalled: bool

    constructor (jobId: string, config: Config, store: RestoreJobStore, bus: RestoreEventBus)
      ensures this.jobId == jobId && this.config == config && this.store == store && this.bus == bus
      ensures place == Idle && !heartbeatTimer && !stalledCheckTimer && lastHeartbeatAt == 0 && !stalled
      ensures jobId in store.jobs ==> Valid()
    {
      this.jobId := jobId;
      this.config := config;
      this.store := store;
      this.bus := bus;
      place := Idle;
      heartbeatTimer := false;
      stalledCheckTimer := false;
      lastHeartbeatAt := 0;
      stalled := false;
      engine := new RestoreEngine(config.handlers, store, bus);
    }

    ghost predicate Valid()
      reads this, store
    {
      && jobId in store.jobs && heartbeatTimer == stalledCheckTimer
      && engine.store == store && engine.bus == bus && engine.handlers == config.handlers
    }

    ghost function Model(): Job
      requires Valid()
      reads this, store, bus
    {
      Job(config, store.jobs[jobId], place, heartbeatTimer, lastHeartbeatAt, stalled, bus.Channel(jobId))
    }

    ghost function Around(): Surroundings
      reads this, store, bus
    {
      Surroundings(store.jobs, bus.Elsewhere(jobId))
    }

    /** The worker and its job stand as `j` says, and no other row or channel has changed since `base`. */
    ghost predicate Is(base: Surroundings, j: Job)
      reads this, store, bus
    {
      && Valid() && Model() == j
      && jobId in base.jobs && store.jobs == base.jobs[jobId := j.row] && bus.Elsewhere(jobId) == base.elsewhere
    }

    method Publish(event: Event, throws: bool, ghost base: Surroundings, ghost j: Job) returns (threw: bool)
      requires Is(base, j)
      modifies bus
      ensures threw == throws && Is(base, j.(events := j.events + [event]))
    {
      bus.Publish(jobId, event);
      threw := throws;
    }

    method Stop(ghost base: Surroundings, ghost j: Job)
      requires Is(base, j)
      modifies this
      ensures Is(base, j.(timers := false))
    {
      if heartbeatTimer {
        heartbeatTimer := false;
      }
      if stalledCheckTimer {
        stalledCheckTimer := false;
      }
    }

    /** Stops the timers and announces the end; an exception of a subscriber leaves `run`. */
    method AnnounceEnd(status: JobStatus, throws: bool, ghost base: Surroundings, ghost j: Job)
      requires Is(base, j)
      modifies this, bus
      ensures Is(base, Conclude(j, j.row, status, throws))
    {
      Stop(base, j);
      var threw := Publish(Complete(status), throws, base, j.(timers := false));
      place := if threw then Failing else Ended;
    }

    /** The catch block of `run`. */
    method LeaveByException(ghost base: Surroundings, ghost j: Job)
      requires Is(base, j)
      modifies this
      ensures Is(base, Reject(j))
    {
      Stop(base, j);
      place := Failing;
    }

    /** From the beginning of `run` to its first await. */
    method Start(now: int, throwing: seq<bool>)
      requires Valid() && place.Idle?
      modifies this, store`jobs, bus
      ensures Is(old(Around()), Launch(old(Model()), now, throwing))
    {
      ghost var base, j := Around(), Model();
      store.SetStatus(jobId, Running);
      lastHeartbeatAt := now;
      store.UpdateHeartbeat(jobId, now);
      heartbeatTimer := true;
      stalledCheckTimer := true;
      assert Is(base, Armed(j, now));
      var job := store.GetJob(jobId);
      if config.checksTrash && job.value.destination == Original && job.value.scope.Projects? {
        place := CheckingTrash;
        return;
      }
      RunPhases(now, throwing, base, Armed(j, now));
    }

    /** Past the trash check, up to the next await. */
    method RunPhases(now: int, throwing: seq<bool>, ghost base: Surroundings, ghost j: Job)
      requires Is(base, j)
      modifies this, store`jobs, bus
      ensures Is(base, Proceed(j, now, throwing))
    {
      var job := store.GetJob(jobId);
      if job.value.destination == Export {
        place := Downloading;
        return;
      }
      var at := engine.StartExecution(jobId, now, Throws(throwing, 0), base, j.row, j.events);
      place := PlaceOf(at);
    }

    method OnTrashAnswered(blocked: bool, now: int, throwing: seq<bool>)
      requires Valid() && place.CheckingTrash?
      modifies this, store`jobs, bus
      ensures Is(old(Around()), AfterTrashCheck(old(Model()), blocked, now, throwing))
    {
      ghost var base, j := Around(), Model();
      if blocked {
        store.SetTrashWindowBlocked(jobId);
        AnnounceEnd(Failed, Throws(throwing, 0), base, j.(row := TrashBlockedRow(j.row)));
        return;
      }
      RunPhases(now, throwing, base, j);
    }

    /** From the outcome of the awaited handler to the next await of the engine. */
    method OnHandlerEnded(outcome: Outcome, now: int, throwing: seq<bool>)
      requires Valid() && place.InPhase? && place.i < |config.handlers|
      modifies this, store`jobs, bus
      ensures Is(old(Around()), AfterHandler(old(Model()), outcome, now, throwing))
    {
      ghost var base, j := Around(), Model();
      ghost var x := EndPhase(j.row, j.events, config.handlers, place.i, place.totalErrors, outcome, now, throwing);
      var quiet := Meanwhile(Running, None, false, []);
      var at := engine.ResumeExecution(jobId, place.i, place.totalErrors, Awaited(outcome, quiet, now, throwing),
                                       base, j.row, j.events, x);
      place := PlaceOf(at);
    }

    /** The project handler meets an existing project in ask mode and begins to wait. */
    method AskForDecision(conflictId: string, key: string)
      requires Valid() && place.InPhase? && conflictId !in store.conflicts
      modifies this, store`jobs, store`conflicts, bus
      ensures Is(old(Around()), AskOperator(old(Model()), conflictId, key))
      ensures store.conflicts == old(store.conflicts)[conflictId := Conflict(jobId, key, None, None)]
    {
      ghost var base, j := Around(), Model();
      var _ := store.InsertConflict(conflictId, jobId, key);
      store.SetStatus(jobId, AwaitingDecision);
      var _ := Publish(ConflictDecisionRequired(conflictId, key), false, base,
                       j.(row := j.row.(status := AwaitingDecision)));
      place := place.(waiting := Some(conflictId));
    }

    /** One tick of the interval in which a waiting handler looks for its decision. */
    method PollDecision()
      requires Valid() && place.InPhase? && place.waiting.Some?
      modifies this, store`jobs
      ensures var c := old(place.waiting.value);
              var decided := c in store.conflicts && store.conflicts[c].decision.Some?;
              Is(old(Around()), if decided then GoOnDecided(old(Model())) else old(Model()))
    {
      var conflict := store.GetConflict(place.waiting.value);
      if conflict != None && conflict.value.decision != None {
        place := place.(waiting := None);
        store.SetStatus(jobId, Running);
      }
    }

    method OnEngineDone(now: int, throwing: seq<bool>)
      requires Valid() && place.EngineLeft?
      modifies this, store`jobs, bus
      ensures Is(old(Around()), AfterEngine(old(Model()), now, throwing))
    {
      ghost var base, j := Around(), Model();
      if !place.how.Done? {
        LeaveByException(base, j);
        return;
      }
      var outcome := place.how.outcome;
      if outcome.EngineFailed? {
        AnnounceEnd(Failed, Throws(throwing, 0), base, j);
        return;
      }
      var finalStatus := if outcome.EngineCompleted? then Completed else CompletedWithErrors;
      store.CompleteJob(jobId, finalStatus, now);
      store.SetCurrentPhase(jobId, None);
      AnnounceEnd(finalStatus, Throws(throwing, 0), base,
                  j.(row := CompletedRow(j.row, finalStatus, now).(currentPhase := None)));
    }

    /** The catch block of `runBrowserDownload`. */
    method OnDownloadThrew(now: int, throws: bool, ghost base: Surroundings, ghost j: Job)
      requires Is(base, j)
      modifies this, store`jobs, bus
      ensures Is(base, DownloadFails(j, now, throws))
    {
      store.SetFailed(jobId, BrowserDownloadFailed, now);
      AnnounceEnd(Failed, throws, base, j.(row := FailedRow(j.row, BrowserDownloadFailed, now)));
    }

    method OnDownloaded(path: string, now: int, throwing: seq<bool>)
      requires Valid() && place.Downloading?
      modifies this, store`jobs, store`downloadPaths, bus
      ensures Is(old(Around()), DownloadEnds(old(Model()), now, throwing))
      ensures store.downloadPaths == old(store.downloadPaths)[jobId := path]
    {
      ghost var base, j := Around(), Model();
      store.SetDownloadPath(jobId, path);
      store.CompleteJob(jobId, Completed, now);
      Stop(base, j.(row := CompletedRow(j.row, Completed, now)));
      ghost var done := Conclude(j, CompletedRow(j.row, Completed, now), Completed, false);
      var threw := Publish(Complete(Completed), Throws(throwing, 0), base,
                           j.(row := CompletedRow(j.row, Completed, now), timers := false));
      place := Ended;
      if threw {
        OnDownloadThrew(now, Throws(throwing, 1), base, done);
      }
    }

    /** Runs from its timer, and from the assembler while a download is awaited. */
    method EmitHeartbeat(now: int)
      requires Valid()
      modifies this, store`jobs, bus
      ensures Is(old(Around()), Beat(old(Model()), now))
    {
      ghost var base, j := Around(), Model();
      lastHeartbeatAt := now;
      store.UpdateHeartbeat(jobId, now);
      if stalled {
        stalled := false;
        store.SetStalled(jobId, false);
      }
      assert Is(base, j.(row := HeartbeatRow(j.row, now), lastHeartbeatAt := now, stalled := false));
      var job := store.GetJob(jobId);
      var _ := Publish(HeartbeatEvent(job.value), false, base,
                       j.(row := HeartbeatRow(j.row, now), lastHeartbeatAt := now, stalled := false));
    }

    method CheckForStall(now: int)
      requires Valid()
      modifies this, store`jobs, bus
      ensures Is(old(Around()), CheckStall(old(Model()), now))
    {
      ghost var base, j := Around(), Model();
      var age := now - lastHeartbeatAt;
      if age > config.staleThresholdMs && !stalled {
        stalled := true;
        store.SetStalled(jobId, true);
        var _ := Publish(StalledEvent(age), false, base, j.(stalled := true, row := j.row.(stalled := true)));
      }
    }

    /** The steps of the project handler and of the phases. */
    predicate InHandlers(e: Step) {
      e.Asked? || e.AskedAndThrew? || e.Polled? || e.HandlerEnded?
    }

    method TakeInHandlers(e: Step)
      requires Valid() && e.id == jobId && Ready(Model(), e) && ConflictsAllow(Model(), e, store.conflicts)
      requires InHandlers(e)
      modifies this, store`jobs, store`conflicts, store`downloadPaths, bus
      ensures Is(old(Around()), Moved(old(Model()), e))
      ensures store.conflicts == ConflictsAfter(old(store.conflicts), e)
      ensures store.downloadPaths == if e.Downloaded? then old(store.downloadPaths)[jobId := e.path]
                                     else old(store.downloadPaths)
    {
      match e {
        case Asked(_, c, key) => AskForDecision(c, key);
        case AskedAndThrew(_, c, key, processed, total, now, throwing) =>
          AskForDecision(c, key);
          OnHandlerEnded(QuestionThrew(processed, total), now, throwing);
        case Polled(_) => PollDecision();
        case HandlerEnded(_, outcome, now, throwing) => OnHandlerEnded(outcome, now, throwing);
      }
    }

    /** The worker's callbacks are the steps of the life cycle, for the job and for the tables alike. */
    method Take(e: Step)
      requires Valid() && e.id == jobId && Ready(Model(), e) && ConflictsAllow(Model(), e, store.conflicts)
      modifies this, store`jobs, store`conflicts, store`downloadPaths, bus
      ensures Is(old(Around()), Moved(old(Model()), e))
      ensures store.conflicts == ConflictsAfter(old(store.conflicts), e)
      ensures store.downloadPaths == if e.Downloaded? then old(store.downloadPaths)[jobId := e.path]
                                     else old(store.downloadPaths)
    {
      if InHandlers(e) {
        TakeInHandlers(e);
        return;
      }
      match e {
        case StartWorker(_, now, throwing) => Start(now, throwing);
        case TrashAnswered(_, blocked, now, throwing) => OnTrashAnswered(blocked, now, throwing);
        case TrashThrew(_) => LeaveByException(Around(), Model());
        case EngineResumed(_, now, throwing) => OnEngineDone(now, throwing);
        case Downloaded(_, path, now, throwing) => OnDownloaded(path, now, throwing);
        case DownloadThrew(_, now, throwing) => OnDownloadThrew(now, Throws(throwing, 0), Around(), Model());
        case RejectionCaught(_, now) => OnRejected(now);
        case HeartbeatTick(_, now) => EmitHeartbeat(now);
        case StallTick(_, now) => CheckForStall(now);
      }
    }

    /** The router's handler of a rejected `run`. */
    method OnRejected(now: int)
      requires Valid() && place.Failing?
      modifies this, store`jobs
      ensures Is(old(Around()), CatchRejection(old(Model()), now))
    {
      store.SetFailed(jobId, WorkerError, now);
      place := RouterFailed;
    }
  }

  /** The handler of `POST /:id/decisions`. */
  method PostDecision(store: RestoreJobStore, jobId: string, conflictId: Option<string>, decision: Option<Decision>,
                      now: int)
    returns (answer: Answer)
    modifies store`jobs, store`conflicts
    ensures var row := if jobId in old(store.jobs) then Some(old(store.jobs)[jobId]) else None;
            answer == AnswerTo(row, old(store.conflicts), jobId, conflictId, decision)
    ensures answer != Accepted ==> store.jobs == old(store.jobs) && store.conflicts == old(store.conflicts)
    ensures answer == Accepted ==>
              && store.jobs == old(store.jobs)[jobId := old(store.jobs)[jobId].(status := Running)]
              && var c := old(store.conflicts)[conflictId.value];
                 store.conflicts
                 == old(store.conflicts)[conflictId.value := c.(decision := decision, decidedAt := Some(now))]
  {
    var job := store.GetJob(jobId);
    if job == None {
      return JobNotFound;
    }
    if job.value.status != AwaitingDecision {
      return InvalidState;
    }
    if conflictId == None || conflictId.value == "" {
      return InvalidRequest;
    }
    if decision == None {
      return InvalidRequest;
    }
    var conflict := store.GetConflict(conflictId.value);
    if conflict == None || conflict.value.jobId != jobId {
      return ConflictNotFound;
    }
    if conflict.value.decision != None {
      return AlreadyResolved;
    }
    store.ResolveConflict(conflictId.value, decision.value, now);
    store.SetStatus(jobId, Running);
    answer := Accepted;
  }
}
