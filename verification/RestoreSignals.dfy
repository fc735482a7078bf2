/** What the channel of a restore job says about media warnings and stalls, over every run of the system. */
module RestoreSignals {
  import opened Common
  import opened RestoreStore
  import opened RestoreEngine
  import opened RestoreLifecycle

  /** The issues of the last media warning, if there was one. */
  function Warned(events: seq<Event>): Option<seq<string>> {
    if events == [] then None
    else if events[|events| - 1].AdfMediaWarning? then Some(events[|events| - 1].issueIds)
    else Warned(events[..|events| - 1])
  }

  predicate InPostIssue(events: seq<Event>) {
    var announced := Transitions(events);
    |announced| > 0 && announced[|announced| - 1] == PostIssuePhase
  }

  /** A warning names some issues and comes while the last phase announced is the one after the issues. */
  ghost predicate WarningsOk(events: seq<Event>) {
    events != [] ==>
      var n := |events| - 1;
      && WarningsOk(events[..n])
      && (events[n].AdfMediaWarning? ==> events[n].issueIds != [] && InPostIssue(events[..n]))
  }

  /** Whether the last sign of life is a stall. */
  predicate StalledNow(events: seq<Event>) {
    events != [] &&
    var last := events[|events| - 1];
    last.StalledEvent? || (!last.Heartbeat? && StalledNow(events[..|events| - 1]))
  }

  /** Between two stalls there is a heartbeat. */
  ghost predicate StallsAlternate(events: seq<Event>) {
    events != [] ==>
      var n := |events| - 1;
      StallsAlternate(events[..n]) && (events[n].StalledEvent? ==> !StalledNow(events[..n]))
  }

  ghost predicate SignalsFit(row: RestoreJob, events: seq<Event>, stalled: bool) {
    && (row.adfMediaWarningEmitted <==> Warned(events).Some?)
    && row.adfMediaWarnings == (if Warned(events).Some? then Warned(events).value else [])
    && WarningsOk(events) && StallsAlternate(events)
    && (stalled <==> StalledNow(events)) && (row.stalled ==> stalled)
  }

  lemma Appended(events: seq<Event>, e: Event)
    ensures Warned(events + [e]) == if e.AdfMediaWarning? then Some(e.issueIds) else Warned(events)
    ensures WarningsOk(events + [e])
            <==> WarningsOk(events) && (e.AdfMediaWarning? ==> e.issueIds != [] && InPostIssue(events))
    ensures StalledNow(events + [e]) <==> e.StalledEvent? || (!e.Heartbeat? && StalledNow(events))
    ensures StallsAlternate(events + [e]) <==> StallsAlternate(events) && (e.StalledEvent? ==> !StalledNow(events))
  {
    assert (events + [e])[..|events|] == events;
  }

  /** An event of another kind, and a row that differs in nothing the channel speaks of. */
  lemma OtherEvent(row: RestoreJob, events: seq<Event>, stalled: bool, after: RestoreJob, e: Event)
    requires SignalsFit(row, events, stalled)
    requires !e.AdfMediaWarning? && !e.StalledEvent? && !e.Heartbeat?
    requires after.adfMediaWarningEmitted == row.adfMediaWarningEmitted
             && after.adfMediaWarnings == row.adfMediaWarnings
    requires after.stalled ==> row.stalled
    ensures SignalsFit(after, events + [e], stalled)
  {
    Appended(events, e);
  }

  lemma BeginFits(row: RestoreJob, events: seq<Event>, stalled: bool, handlers: seq<Phase>, i: nat, totalErrors: nat,
                  now: int, throws: bool, x: Execution)
    requires SignalsFit(row, events, stalled) && x == BeginPhase(row, events, handlers, i, totalErrors, now, throws)
    ensures SignalsFit(x.row, x.events, stalled)
  {
    if i < |handlers| {
      OtherEvent(row, events, stalled, x.row, PhaseTransition(handlers[i]));
    }
  }

  lemma GoOnFits(row: RestoreJob, events: seq<Event>, stalled: bool, handlers: seq<Phase>, i: nat, totalErrors: nat,
                 result: PhaseResult, now: int, throwing: seq<bool>, x: Execution)
    requires SignalsFit(row, events, stalled) && i < |handlers|
    requires Transitions(events) == handlers[..i + 1]
    requires x == GoOn(row, events, handlers, i, totalErrors, result, now, throwing)
    ensures SignalsFit(x.row, x.events, stalled)
  {
    if Warns(handlers[i], result) {
      var warned := WarnedRow(row, result.affectedIssueIds);
      var published := events + [AdfMediaWarning(result.affectedIssueIds)];
      Appended(events, AdfMediaWarning(result.affectedIssueIds));
      if !Throws(throwing, 0) {
        BeginFits(warned, published, stalled, handlers, i + 1, totalErrors, now, Throws(throwing, 1), x);
      }
    } else {
      BeginFits(row, events, stalled, handlers, i + 1, totalErrors, now, Throws(throwing, 0), x);
    }
  }

  lemma EndFits(before: Execution, stalled: bool, handlers: seq<Phase>, outcome: Outcome, now: int, throwing: seq<bool>,
                x: Execution)
    requires before.at.AwaitingHandler? && before.at.i < |handlers| && ExecutionOk(before, handlers)
    requires SignalsFit(before.row, before.events, stalled)
    requires x == EndPhase(before.row, before.events, handlers, before.at.i, before.at.totalErrors, outcome, now,
                           throwing)
    ensures SignalsFit(x.row, x.events, stalled)
  {
    var result := ResultOf(outcome);
    var counted := CountedRow(before.row, before.at.i, result, now);
    if result.status.PhaseFailed? {
      OtherEvent(before.row, before.events, stalled, x.row,
                 PhaseFailure(handlers[before.at.i], DiagnosticOf(handlers[before.at.i], result)));
    } else {
      GoOnFits(counted, before.events, stalled, handlers, before.at.i, before.at.totalErrors + result.errorCount,
               result, now, throwing, x);
    }
  }

  ghost predicate Fits(j: Job) {
    SignalsFit(j.row, j.events, j.stalled)
  }

  lemma ProceedFits(j: Job, now: int, throwing: seq<bool>, t: Job)
    requires Fits(j) && t == Proceed(j, now, throwing)
    ensures Fits(t)
  {
    if !j.row.destination.Export? {
      var row := j.row.(phaseProgress := InitialProgress(j.config.handlers));
      BeginFits(row, j.events, j.stalled, j.config.handlers, 0, 0, now, Throws(throwing, 0),
                Start(j.row, j.events, j.config.handlers, now, Throws(throwing, 0)));
    }
  }

  lemma ConcludeFits(j: Job, row: RestoreJob, status: JobStatus, throws: bool, t: Job)
    requires Fits(j) && t == Conclude(j, row, status, throws)
    requires row.adfMediaWarningEmitted == j.row.adfMediaWarningEmitted
             && row.adfMediaWarnings == j.row.adfMediaWarnings
    requires row.stalled ==> j.row.stalled
    ensures Fits(t)
  {
    OtherEvent(j.row, j.events, j.stalled, row, Complete(status));
  }

  lemma AfterHandlerFits(j: Job, outcome: Outcome, now: int, throwing: seq<bool>, t: Job)
    requires j.place.InPhase? && j.place.i < |j.config.handlers| && JobOk(j) && Fits(j)
    requires t == AfterHandler(j, outcome, now, throwing)
    ensures Fits(t)
  {
    var before := Execution(j.row, j.events, AwaitingHandler(j.place.i, j.place.totalErrors));
    var x := EndPhase(j.row, j.events, j.config.handlers, j.place.i, j.place.totalErrors, outcome, now, throwing);
    EndFits(before, j.stalled, j.config.handlers, outcome, now, throwing, x);
  }

  lemma DownloadEndsFits(j: Job, now: int, throwing: seq<bool>, t: Job)
    requires Fits(j) && t == DownloadEnds(j, now, throwing)
    ensures Fits(t)
  {
    var done := Conclude(j, CompletedRow(j.row, Completed, now), Completed, false);
    ConcludeFits(j, CompletedRow(j.row, Completed, now), Completed, false, done);
    if Throws(throwing, 0) {
      ConcludeFits(done, FailedRow(done.row, BrowserDownloadFailed, now), Failed, Throws(throwing, 1), t);
    }
  }

  lemma AfterEngineFits(j: Job, now: int, throwing: seq<bool>, t: Job)
    requires j.place.EngineLeft? && Fits(j) && t == AfterEngine(j, now, throwing)
    ensures Fits(t)
  {
    if j.place.how.Done? {
      var status := FinalStatus(j.place.how.outcome);
      var row := if status == Failed then j.row else CompletedRow(j.row, status, now).(currentPhase := None);
      ConcludeFits(j, row, status, Throws(throwing, 0), t);
    }
  }

  lemma HeartbeatFits(row: RestoreJob, events: seq<Event>, stalled: bool, after: RestoreJob, e: Event)
    requires SignalsFit(row, events, stalled) && e.Heartbeat?
    requires after.adfMediaWarningEmitted == row.adfMediaWarningEmitted
             && after.adfMediaWarnings == row.adfMediaWarnings
    requires !after.stalled
    ensures SignalsFit(after, events + [e], false)
  {
    Appended(events, e);
  }

  lemma StallFits(row: RestoreJob, events: seq<Event>, after: RestoreJob, e: Event)
    requires SignalsFit(row, events, false) && e.StalledEvent?
    requires after.adfMediaWarningEmitted == row.adfMediaWarningEmitted
             && after.adfMediaWarnings == row.adfMediaWarnings
    ensures SignalsFit(after, events + [e], true)
  {
    Appended(events, e);
  }

  lemma TickFits(j: Job, e: Step, t: Job)
    requires e.HeartbeatTick? || e.StallTick?
    requires Fits(j) && Ready(j, e) && t == Moved(j, e)
    ensures Fits(t)
  {
    if e.HeartbeatTick? {
      HeartbeatFits(j.row, j.events, j.stalled, t.row, HeartbeatEvent(HeartbeatRow(j.row, e.now)));
    } else if t != j {
      StallFits(j.row, j.events, t.row, StalledEvent(e.now - j.lastHeartbeatAt));
    }
  }

  lemma QuestionThrewFits(j: Job, c: string, key: string, processed: nat, total: nat, now: int, throwing: seq<bool>,
                          t: Job)
    requires JobOk(j) && Fits(j) && Ready(j, AskedAndThrew("", c, key, processed, total, now, throwing))
    requires j.row.status == Running
    requires t == AfterHandler(AskOperator(j, c, key), QuestionThrew(processed, total), now, throwing)
    ensures Fits(t)
  {
    var a := AskOperator(j, c, key);
    OtherEvent(j.row, j.events, j.stalled, a.row, ConflictDecisionRequired(c, key));
    AskIsOk(j, c, key);
    AfterHandlerFits(a, QuestionThrew(processed, total), now, throwing, t);
  }

  lemma MovedFits(j: Job, e: Step, t: Job)
    requires JobOk(j) && Fits(j) && Ready(j, e) && t == Moved(j, e)
    requires j.place.InPhase? && j.place.waiting == None ==> j.row.status == Running
    ensures Fits(t)
  {
    match e
    case StartWorker(_, now, throwing) =>
      if !ChecksTrash(j) {
        ProceedFits(Armed(j, now), now, throwing, t);
      }
    case TrashAnswered(_, blocked, now, throwing) =>
      if blocked {
        ConcludeFits(j, TrashBlockedRow(j.row), Failed, Throws(throwing, 0), t);
      } else {
        ProceedFits(j, now, throwing, t);
      }
    case Asked(_, c, key) => OtherEvent(j.row, j.events, j.stalled, t.row, ConflictDecisionRequired(c, key));
    case AskedAndThrew(_, c, key, processed, total, now, throwing) =>
      QuestionThrewFits(j, c, key, processed, total, now, throwing, t);
    case HandlerEnded(_, outcome, now, throwing) => AfterHandlerFits(j, outcome, now, throwing, t);
    case EngineResumed(_, now, throwing) => AfterEngineFits(j, now, throwing, t);
    case Downloaded(_, _, now, throwing) => DownloadEndsFits(j, now, throwing, t);
    case DownloadThrew(_, now, throwing) =>
      ConcludeFits(j, FailedRow(j.row, BrowserDownloadFailed, now), Failed, Throws(throwing, 0), t);
    case HeartbeatTick(_, _) => TickFits(j, e, t);
    case StallTick(_, _) => TickFits(j, e, t);
    case _ =>
  }

  lemma {:induction false} SignalsFitAlways(steps: seq<Step>, id: string)
    requires id in Run(EMPTY, steps).jobs
    ensures Fits(Run(EMPTY, steps).jobs[id])
  {
    var n := |steps| - 1;
    var s, e := Run(EMPTY, steps[..n]), steps[n];
    RunKeepsInv(steps[..n]);
    if id in s.jobs {
      SignalsFitAlways(steps[..n], id);
      StepFits(s, e, id, Run(EMPTY, steps));
    }
  }

  lemma DecisionFits(s: System, e: Step, id: string, t: System)
    requires id in s.jobs && Fits(s.jobs[id]) && e.DecisionPosted? && t == Apply(s, e)
    ensures id in t.jobs && Fits(t.jobs[id])
  {
  }

  lemma StepFits(s: System, e: Step, id: string, t: System)
    requires Inv(s) && id in s.jobs && Fits(s.jobs[id]) && t == Apply(s, e)
    ensures id in t.jobs && Fits(t.jobs[id])
  {
    assert JobOk(s.jobs[id]) && HandshakeOk(id, s.jobs[id], s.conflicts);
    if e.DecisionPosted? {
      DecisionFits(s, e, id, t);
    } else {
      StepTouches(s, e, id, t);
      if Enabled(s, e) && !e.CreateJob? && e.id == id {
        MovedFits(s.jobs[id], e, t.jobs[id]);
      }
    }
  }

  /**
   In every reachable state the row holds the last media warning of the channel, and every warning named some issues
   and came during the last phase.
   */
  lemma WarningsMatchTheChannel(steps: seq<Step>, id: string)
    requires id in Run(EMPTY, steps).jobs
    ensures var j := Run(EMPTY, steps).jobs[id];
            && (j.row.adfMediaWarningEmitted <==> Warned(j.events).Some?)
            && (Warned(j.events).Some? ==> j.row.adfMediaWarnings == Warned(j.events).value)
            && WarningsOk(j.events)
  {
    SignalsFitAlways(steps, id);
  }

  /**
   A stall is announced once, until a heartbeat comes; a row marked as stalled is one whose last sign of life was a
   stall.
   */
  lemma OneStallPerSilence(steps: seq<Step>, id: string)
    requires id in Run(EMPTY, steps).jobs
    ensures var j := Run(EMPTY, steps).jobs[id];
            && StallsAlternate(j.events) && (j.stalled <==> StalledNow(j.events))
            && (j.row.stalled ==> StalledNow(j.events))
  {
    SignalsFitAlways(steps, id);
  }
}
