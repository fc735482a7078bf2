/**
 How restore jobs end, over every run of the system: how often an end is announced, what follows an announcement, and
 when the status of an ended job can still change. Each answer depends on what subscribers of the bus did when an end
 of that job was announced, and on nothing else.
 */
module RestoreEndings {
  import opened Common
  import opened RestoreStore
  import opened RestoreEngine
  import opened RestoreLifecycle

  /** The announcements at which a subscriber may throw: that of a stored archive, of a success, or of any end. */
  datatype Occasion = OfArchive | OfSuccess | OfEnd

  predicate EngineSucceeded(place: Place) {
    place.EngineLeft? && place.how.Done? && !place.how.outcome.EngineFailed?
  }

  /**
   In a step of the worker of `j` a subscriber throws at such an announcement, and no one in the step catches it but
   `run`.
   */
  predicate ThrowsIn(occasion: Occasion, j: Job, e: Step) {
    match occasion
    case OfArchive => e.Downloaded? && Throws(e.throwing, 0)
    case OfSuccess => e.EngineResumed? && Throws(e.throwing, 0) && EngineSucceeded(j.place)
    case OfEnd =>
      || (e.TrashAnswered? && e.blocked && Throws(e.throwing, 0))
      || (e.EngineResumed? && Throws(e.throwing, 0) && j.place.EngineLeft? && j.place.how.Done?)
      || (e.Downloaded? && Throws(e.throwing, 0) && Throws(e.throwing, 1))
      || (e.DownloadThrew? && Throws(e.throwing, 0))
  }

  /** The own worker's step of a job. */
  predicate OwnStep(s: System, e: Step, id: string) {
    Enabled(s, e) && !e.CreateJob? && !e.DecisionPosted? && e.id == id
  }

  predicate ThrowsAt(occasion: Occasion, s: System, id: string, e: Step) {
    OwnStep(s, e, id) && ThrowsIn(occasion, s.jobs[id], e)
  }

  /** Some step of the run was one of them, for this job. */
  predicate Threw(occasion: Occasion, steps: seq<Step>, id: string) {
    steps != [] &&
    var before := steps[..|steps| - 1];
    Threw(occasion, before, id) || ThrowsAt(occasion, Run(EMPTY, before), id, steps[|steps| - 1])
  }

  ghost predicate ThrewAt(occasion: Occasion, steps: seq<Step>, id: string, k: nat) {
    k < |steps| && ThrowsAt(occasion, Run(EMPTY, steps[..k]), id, steps[k])
  }

  lemma {:induction false} FindThrow(occasion: Occasion, steps: seq<Step>, id: string) returns (k: nat)
    requires Threw(occasion, steps, id)
    ensures ThrewAt(occasion, steps, id, k)
  {
    var n := |steps| - 1;
    if Threw(occasion, steps[..n], id) {
      k := FindThrow(occasion, steps[..n], id);
      assert steps[..n][..k] == steps[..k] && steps[..n][k] == steps[k];
    } else {
      k := n;
    }
  }

  lemma {:induction false} ThrowIsRemembered(occasion: Occasion, steps: seq<Step>, id: string, k: nat)
    requires ThrewAt(occasion, steps, id, k)
    ensures Threw(occasion, steps, id)
  {
    var n := |steps| - 1;
    if k < n {
      assert steps[..n][..k] == steps[..k] && steps[..n][k] == steps[k];
      ThrowIsRemembered(occasion, steps[..n], id, k);
    }
  }

  /** That is, there is such a step, taken in the state its predecessors lead to. */
  lemma ThrewSomewhere(occasion: Occasion, steps: seq<Step>, id: string)
    ensures Threw(occasion, steps, id) <==> exists k :: ThrewAt(occasion, steps, id, k)
  {
    if Threw(occasion, steps, id) {
      var k := FindThrow(occasion, steps, id);
    }
    if k :| ThrewAt(occasion, steps, id, k) {
      ThrowIsRemembered(occasion, steps, id, k);
    }
  }

  lemma StepAfter(steps: seq<Step>, e: Step)
    ensures Run(EMPTY, steps + [e]) == Apply(Run(EMPTY, steps), e)
  {
    assert (steps + [e])[..|steps|] == steps;
  }

  lemma ThrewSoFar(occasion: Occasion, steps: seq<Step>, last: Step, id: string)
    ensures Threw(occasion, steps + [last], id)
            <==> Threw(occasion, steps, id) || ThrowsAt(occasion, Run(EMPTY, steps), id, last)
  {
    assert (steps + [last])[..|steps|] == steps;
  }

  // Announcements

  function Ends(events: seq<Event>): nat {
    if events == [] then 0 else Ends(events[..|events| - 1]) + if events[|events| - 1].Complete? then 1 else 0
  }

  ghost predicate NoEnd(events: seq<Event>) {
    forall e :: e in events ==> !e.Complete?
  }

  lemma {:induction false} NoEndCounts(events: seq<Event>)
    requires NoEnd(events)
    ensures Ends(events) == 0
  {
    if events != [] {
      assert events[|events| - 1] in events;
      NoEndCounts(events[..|events| - 1]);
    }
  }

  lemma EndsAppend(events: seq<Event>, e: Event)
    ensures Ends(events + [e]) == Ends(events) + if e.Complete? then 1 else 0
  {
    assert (events + [e])[..|events|] == events;
  }

  predicate Closed(place: Place) {
    place.Failing? || place.RouterFailed? || place.Ended?
  }

  predicate LastIsEnd(events: seq<Event>) {
    |events| > 0 && events[|events| - 1].Complete?
  }

  predicate LastIs(events: seq<Event>, status: JobStatus) {
    |events| > 0 && events[|events| - 1] == Complete(status)
  }

  predicate Successful(status: JobStatus) {
    status == Completed || status == CompletedWithErrors
  }

  /** What the channel says about the end, given whether subscribers threw at the three kinds of announcement so far. */
  ghost predicate EndFits(j: Job, archive: bool, success: bool, end: bool) {
    if !Closed(j.place) then NoEnd(j.events) && !archive && !success && !end
    else
      && Ends(j.events) <= 2 && (Ends(j.events) == 2 <==> archive)
      && (Ends(j.events) > 0 ==>
            && Terminal(j.row.status) && LastIsEnd(j.events)
            && (LastIs(j.events, j.row.status) <==> !(success && j.place.RouterFailed?)))
      && (success ==> end && !archive)
      && match j.place
         case Ended => Ends(j.events) > 0 && !success && !end
         case Failing => (Ends(j.events) > 0 <==> end) && (success <==> Successful(j.row.status))
         case _ => Ends(j.events) > 0 <==> end
  }

  lemma ConcludeEnds(j: Job, row: RestoreJob, status: JobStatus, throws: bool, t: Job)
    requires t == Conclude(j, row, status, throws)
    ensures Ends(t.events) == Ends(j.events) + 1 && LastIs(t.events, status)
  {
    EndsAppend(j.events, Complete(status));
  }

  lemma EngineAnnouncesNoEnd(row: RestoreJob, events: seq<Event>, handlers: seq<Phase>, i: nat, totalErrors: nat,
                             outcome: Outcome, now: int, throwing: seq<bool>, x: Execution)
    requires NoEnd(events) && i < |handlers|
    requires x == EndPhase(row, events, handlers, i, totalErrors, outcome, now, throwing)
    ensures NoEnd(x.events)
  {
  }

  lemma AfterHandlerAnnouncesNoEnd(j: Job, outcome: Outcome, now: int, throwing: seq<bool>, t: Job)
    requires j.place.InPhase? && j.place.i < |j.config.handlers| && NoEnd(j.events)
    requires t == AfterHandler(j, outcome, now, throwing)
    ensures NoEnd(t.events) && !Closed(t.place)
  {
    var x := EndPhase(j.row, j.events, j.config.handlers, j.place.i, j.place.totalErrors, outcome, now, throwing);
    EngineAnnouncesNoEnd(j.row, j.events, j.config.handlers, j.place.i, j.place.totalErrors, outcome, now, throwing, x);
  }

  lemma HandlerStepFits(j: Job, e: Step, t: Job)
    requires e.HandlerEnded? || e.AskedAndThrew?
    requires EndFits(j, false, false, false) && Ready(j, e) && t == Moved(j, e)
    ensures EndFits(t, false, false, false)
  {
    match e
    case HandlerEnded(_, outcome, now, throwing) => AfterHandlerAnnouncesNoEnd(j, outcome, now, throwing, t);
    case AskedAndThrew(_, c, key, processed, total, now, throwing) =>
      AfterHandlerAnnouncesNoEnd(AskOperator(j, c, key), QuestionThrew(processed, total), now, throwing, t);
  }

  lemma ProceedFits(j: Job, now: int, throwing: seq<bool>, t: Job)
    requires NoEnd(j.events) && t == Proceed(j, now, throwing)
    ensures EndFits(t, false, false, false)
  {
  }

  /** Steps that announce no end and leave the worker where it is, or waiting. */
  lemma OpenStepFits(j: Job, e: Step, t: Job)
    requires e.Asked? || e.Polled? || e.HeartbeatTick? || e.StallTick?
    requires EndFits(j, false, false, false) && !Closed(j.place) && Ready(j, e) && t == Moved(j, e)
    ensures EndFits(t, false, false, false)
  {
  }

  lemma StartFits(j: Job, e: Step, t: Job)
    requires e.StartWorker? || (e.TrashAnswered? && !e.blocked)
    requires EndFits(j, false, false, false) && !Closed(j.place) && Ready(j, e) && t == Moved(j, e)
    ensures EndFits(t, false, false, false)
  {
    if e.TrashAnswered? {
      ProceedFits(j, e.now, e.throwing, t);
    } else if !ChecksTrash(j) {
      ProceedFits(Armed(j, e.now), e.now, e.throwing, t);
    }
  }

  /** The first announcement of an end, when it names the status of the row. */
  lemma FirstEndFits(j: Job, row: RestoreJob, throws: bool, t: Job)
    requires NoEnd(j.events) && Terminal(row.status) && t == Conclude(j, row, row.status, throws)
    ensures EndFits(t, false, throws && Successful(row.status), throws)
  {
    NoEndCounts(j.events);
    ConcludeEnds(j, row, row.status, throws, t);
  }

  lemma BlockedFits(j: Job, e: Step, t: Job)
    requires e.TrashAnswered? && e.blocked
    requires EndFits(j, false, false, false) && Ready(j, e) && t == Moved(j, e)
    ensures EndFits(t, false, false, Throws(e.throwing, 0))
  {
    FirstEndFits(j, TrashBlockedRow(j.row), Throws(e.throwing, 0), t);
  }

  lemma RejectFits(j: Job, t: Job)
    requires EndFits(j, false, false, false) && !Closed(j.place) && !Successful(j.row.status) && t == Reject(j)
    ensures EndFits(t, false, false, false)
  {
    NoEndCounts(j.events);
  }

  lemma AfterEngineEnds(j: Job, now: int, throwing: seq<bool>, t: Job)
    requires j.place.EngineLeft? && EndFits(j, false, false, false) && StatusOk(j) && t == AfterEngine(j, now, throwing)
    ensures EndFits(t, false, EngineSucceeded(j.place) && Throws(throwing, 0), j.place.how.Done? && Throws(throwing, 0))
  {
    if !j.place.how.Done? {
      RejectFits(j, t);
    } else if j.place.how.outcome.EngineFailed? {
      FirstEndFits(j, j.row, Throws(throwing, 0), t);
    } else {
      var status := FinalStatus(j.place.how.outcome);
      FirstEndFits(j, CompletedRow(j.row, status, now).(currentPhase := None), Throws(throwing, 0), t);
    }
  }

  lemma DownloadThrewFits(j: Job, now: int, throws: bool, t: Job)
    requires j.place.Downloading? && EndFits(j, false, false, false) && t == DownloadFails(j, now, throws)
    ensures EndFits(t, false, false, throws)
  {
    FirstEndFits(j, FailedRow(j.row, BrowserDownloadFailed, now), throws, t);
  }

  lemma DownloadedFits(j: Job, now: int, throwing: seq<bool>, t: Job)
    requires j.place.Downloading? && EndFits(j, false, false, false) && t == DownloadEnds(j, now, throwing)
    ensures EndFits(t, Throws(throwing, 0), false, Throws(throwing, 0) && Throws(throwing, 1))
  {
    NoEndCounts(j.events);
    var done := Conclude(j, CompletedRow(j.row, Completed, now), Completed, false);
    ConcludeEnds(j, CompletedRow(j.row, Completed, now), Completed, false, done);
    if Throws(throwing, 0) {
      ConcludeEnds(done, FailedRow(done.row, BrowserDownloadFailed, now), Failed, Throws(throwing, 1), t);
    }
  }

  lemma CaughtFits(j: Job, now: int, archive: bool, success: bool, end: bool, t: Job)
    requires j.place.Failing? && EndFits(j, archive, success, end) && t == CatchRejection(j, now)
    ensures EndFits(t, archive, success, end)
  {
  }

  lemma ClosingStepFits(j: Job, e: Step, t: Job)
    requires (e.TrashAnswered? && e.blocked) || e.TrashThrew? || e.EngineResumed? || e.Downloaded? || e.DownloadThrew?
    requires StatusOk(j) && EndFits(j, false, false, false) && Ready(j, e) && t == Moved(j, e)
    ensures EndFits(t, ThrowsIn(OfArchive, j, e), ThrowsIn(OfSuccess, j, e), ThrowsIn(OfEnd, j, e))
  {
    if e.TrashAnswered? {
      BlockedFits(j, e, t);
    } else if e.TrashThrew? {
      RejectFits(j, t);
    } else if e.EngineResumed? {
      AfterEngineEnds(j, e.now, e.throwing, t);
    } else if e.Downloaded? {
      DownloadedFits(j, e.now, e.throwing, t);
    } else {
      DownloadThrewFits(j, e.now, Throws(e.throwing, 0), t);
    }
  }

  lemma OpenJobFits(j: Job, e: Step, t: Job)
    requires StatusOk(j) && EndFits(j, false, false, false) && !Closed(j.place) && Ready(j, e) && t == Moved(j, e)
    ensures EndFits(t, ThrowsIn(OfArchive, j, e), ThrowsIn(OfSuccess, j, e), ThrowsIn(OfEnd, j, e))
  {
    if e.HandlerEnded? || e.AskedAndThrew? {
      HandlerStepFits(j, e, t);
    } else if e.Asked? || e.Polled? || e.HeartbeatTick? || e.StallTick? {
      OpenStepFits(j, e, t);
    } else if e.StartWorker? || (e.TrashAnswered? && !e.blocked) {
      StartFits(j, e, t);
    } else {
      ClosingStepFits(j, e, t);
    }
  }

  /** A closed job takes no step but the one of the router that catches a rejection. */
  lemma ClosedJobWaits(j: Job, e: Step, t: Job)
    requires StatusOk(j) && Closed(j.place) && Ready(j, e) && t == Moved(j, e)
    ensures e.RejectionCaught? && j.place.Failing? && t == CatchRejection(j, e.now)
  {
  }

  lemma MovedFits(j: Job, e: Step, t: Job, archive: bool, success: bool, end: bool,
                  archive': bool, success': bool, end': bool)
    requires StatusOk(j) && EndFits(j, archive, success, end) && Ready(j, e) && t == Moved(j, e)
    requires archive' == (archive || ThrowsIn(OfArchive, j, e)) && success' == (success || ThrowsIn(OfSuccess, j, e))
    requires end' == (end || ThrowsIn(OfEnd, j, e))
    ensures EndFits(t, archive', success', end')
  {
    if Closed(j.place) {
      ClosedJobWaits(j, e, t);
      CaughtFits(j, e.now, archive, success, end, t);
    } else {
      OpenJobFits(j, e, t);
    }
  }

  // Every run

  ghost predicate FitsAfter(steps: seq<Step>, id: string) {
    var jobs := Run(EMPTY, steps).jobs;
    if id in jobs then
      EndFits(jobs[id], Threw(OfArchive, steps, id), Threw(OfSuccess, steps, id), Threw(OfEnd, steps, id))
    else
      !Threw(OfArchive, steps, id) && !Threw(OfSuccess, steps, id) && !Threw(OfEnd, steps, id)
  }

  lemma DecisionFits(s: System, e: Step, id: string, t: System, archive: bool, success: bool, end: bool)
    requires Inv(s) && id in s.jobs && e.DecisionPosted? && t == Apply(s, e)
    requires EndFits(s.jobs[id], archive, success, end)
    ensures id in t.jobs && EndFits(t.jobs[id], archive, success, end)
  {
    assert JobOk(s.jobs[id]);
    DecisionOnlyRestarts(s, e, id, t);
  }

  lemma OwnStepFits(s: System, e: Step, id: string, t: System, archive: bool, success: bool, end: bool,
                    archive': bool, success': bool, end': bool)
    requires id in s.jobs && JobOk(s.jobs[id]) && t == Apply(s, e) && EndFits(s.jobs[id], archive, success, end)
    requires OwnStep(s, e, id)
    requires archive' == (archive || ThrowsAt(OfArchive, s, id, e))
             && success' == (success || ThrowsAt(OfSuccess, s, id, e))
    requires end' == (end || ThrowsAt(OfEnd, s, id, e))
    ensures id in t.jobs && EndFits(t.jobs[id], archive', success', end')
  {
    StepTouches(s, e, id, t);
    MovedFits(s.jobs[id], e, t.jobs[id], archive, success, end, archive', success', end');
  }

  lemma OtherStepFits(s: System, e: Step, id: string, t: System, archive: bool, success: bool, end: bool)
    requires Inv(s) && id in s.jobs && t == Apply(s, e) && EndFits(s.jobs[id], archive, success, end)
    requires !OwnStep(s, e, id)
    ensures id in t.jobs && EndFits(t.jobs[id], archive, success, end)
  {
    if e.DecisionPosted? {
      DecisionFits(s, e, id, t, archive, success, end);
    } else {
      StepTouches(s, e, id, t);
    }
  }

  lemma OneMoreStepFits(steps: seq<Step>, e: Step, id: string)
    requires FitsAfter(steps, id) && Inv(Run(EMPTY, steps))
    ensures FitsAfter(steps + [e], id)
  {
    var s := Run(EMPTY, steps);
    var all := steps + [e];
    StepAfter(steps, e);
    ThrewSoFar(OfArchive, steps, e, id);
    ThrewSoFar(OfSuccess, steps, e, id);
    ThrewSoFar(OfEnd, steps, e, id);
    if id !in s.jobs {
      OnlyCreationAdds(s, e, id, Run(EMPTY, all));
    } else if OwnStep(s, e, id) {
      OwnStepFits(s, e, id, Run(EMPTY, all),
                  Threw(OfArchive, steps, id), Threw(OfSuccess, steps, id), Threw(OfEnd, steps, id),
                  Threw(OfArchive, all, id), Threw(OfSuccess, all, id), Threw(OfEnd, all, id));
    } else {
      OtherStepFits(s, e, id, Run(EMPTY, all),
                    Threw(OfArchive, steps, id), Threw(OfSuccess, steps, id), Threw(OfEnd, steps, id));
    }
  }

  lemma {:induction false} AllRunsFit(steps: seq<Step>, id: string)
    ensures FitsAfter(steps, id)
  {
    if steps != [] {
      var n := |steps| - 1;
      AllRunsFit(steps[..n], id);
      RunKeepsInv(steps[..n]);
      OneMoreStepFits(steps[..n], steps[n], id);
      assert steps[..n] + [steps[n]] == steps;
    }
  }

  /**
   A job announces its end at most twice, and twice exactly when a subscriber threw at the announcement of its stored
   archive. So at most once is what happens exactly when none did.
   */
  lemma EndIsAnnouncedOnceExactly(steps: seq<Step>, id: string)
    requires id in Run(EMPTY, steps).jobs
    ensures var ends := Ends(Run(EMPTY, steps).jobs[id].events);
            ends <= 2 && (ends <= 1 <==> !Threw(OfArchive, steps, id))
  {
    AllRunsFit(steps, id);
    NoEndCountsIfOpen(Run(EMPTY, steps).jobs[id]);
  }

  lemma NoEndCountsIfOpen(j: Job)
    ensures NoEnd(j.events) ==> Ends(j.events) == 0
  {
    if NoEnd(j.events) {
      NoEndCounts(j.events);
    }
  }

  /**
   A worker that ended on its own has announced the end; one whose `run` rejected has done so exactly when it was the
   subscribers of that announcement who made it reject, and otherwise nobody is told that the job failed.
   */
  lemma EndIsAnnouncedExactly(steps: seq<Step>, id: string)
    requires id in Run(EMPTY, steps).jobs
    ensures var j := Run(EMPTY, steps).jobs[id];
            Ends(j.events) > 0 <==> j.place.Ended? || Threw(OfEnd, steps, id)
  {
    AllRunsFit(steps, id);
    NoEndCountsIfOpen(Run(EMPTY, steps).jobs[id]);
  }

  /**
   Once an end is announced, the last event is an announcement, and it names the status of the row exactly unless a
   subscriber threw at the announcement of a success and the rejection has been caught since.
   */
  lemma LastAnnouncementNamesTheStatus(steps: seq<Step>, id: string)
    requires id in Run(EMPTY, steps).jobs && Ends(Run(EMPTY, steps).jobs[id].events) > 0
    ensures var j := Run(EMPTY, steps).jobs[id];
            && LastIsEnd(j.events)
            && (LastIs(j.events, j.row.status) <==> !(Threw(OfSuccess, steps, id) && j.place.RouterFailed?))
  {
    AllRunsFit(steps, id);
    NoEndCountsIfOpen(Run(EMPTY, steps).jobs[id]);
  }

  /** What a closed job may still become. */
  predicate QuietlyAfter(j: Job, t: Job) {
    Closed(t.place) && t.events == j.events && (t == j || j.place.Failing?)
  }

  lemma OwnStepOfClosed(s: System, e: Step, id: string, t: System)
    requires Inv(s) && id in s.jobs && Closed(s.jobs[id].place) && OwnStep(s, e, id) && t == Apply(s, e)
    ensures id in t.jobs && QuietlyAfter(s.jobs[id], t.jobs[id])
  {
    assert JobOk(s.jobs[id]);
    StepTouches(s, e, id, t);
    ClosedJobWaits(s.jobs[id], e, t.jobs[id]);
  }

  lemma ClosedJobIsQuiet(s: System, e: Step, id: string, t: System)
    requires Inv(s) && id in s.jobs && Closed(s.jobs[id].place) && t == Apply(s, e)
    ensures id in t.jobs && QuietlyAfter(s.jobs[id], t.jobs[id])
  {
    assert JobOk(s.jobs[id]);
    if OwnStep(s, e, id) {
      OwnStepOfClosed(s, e, id, t);
    } else if e.DecisionPosted? {
      DecisionOnlyRestarts(s, e, id, t);
    } else {
      StepTouches(s, e, id, t);
    }
  }

  lemma {:induction false} ClosedJobStaysQuiet(s: System, more: seq<Step>, id: string)
    requires Inv(s) && id in s.jobs && Closed(s.jobs[id].place)
    ensures id in Run(s, more).jobs && QuietlyAfter(s.jobs[id], Run(s, more).jobs[id])
  {
    if more != [] {
      var n := |more| - 1;
      ClosedJobStaysQuiet(s, more[..n], id);
      LaterKeepsInv(s, more[..n]);
      ClosedJobIsQuiet(Run(s, more[..n]), more[n], id, Run(s, more));
    }
  }

  /** Once an end is announced, no continuation of any run publishes anything more for the job. */
  lemma NothingFollowsTheEnd(steps: seq<Step>, more: seq<Step>, id: string)
    requires id in Run(EMPTY, steps).jobs && Ends(Run(EMPTY, steps).jobs[id].events) > 0
    ensures id in Run(EMPTY, steps + more).jobs
    ensures Run(EMPTY, steps + more).jobs[id].events == Run(EMPTY, steps).jobs[id].events
    ensures Run(EMPTY, steps).jobs[id].place.Ended? ==> Run(EMPTY, steps + more).jobs[id] == Run(EMPTY, steps).jobs[id]
  {
    AllRunsFit(steps, id);
    NoEndCountsIfOpen(Run(EMPTY, steps).jobs[id]);
    RunKeepsInv(steps);
    RunConcat(EMPTY, steps, more);
    ClosedJobStaysQuiet(Run(EMPTY, steps), more, id);
  }

  // The status of an ended job

  lemma WorkerStepKeepsEnd(j: Job, e: Step, t: Job)
    requires StatusOk(j) && Ready(j, e) && Terminal(j.row.status) && t == Moved(j, e)
    ensures t.row.status == if e.RejectionCaught? then Failed else j.row.status
  {
  }

  lemma EndedJobThrowsNoSuccess(s: System, e: Step, id: string)
    requires id in s.jobs && StatusOk(s.jobs[id]) && Terminal(s.jobs[id].row.status)
    ensures !ThrowsAt(OfSuccess, s, id, e)
  {
  }

  lemma OwnStepOfEnded(s: System, e: Step, id: string, t: System)
    requires Inv(s) && id in s.jobs && Terminal(s.jobs[id].row.status) && OwnStep(s, e, id) && t == Apply(s, e)
    ensures id in t.jobs
    ensures t.jobs[id].row.status == if e.RejectionCaught? then Failed else s.jobs[id].row.status
  {
    assert JobOk(s.jobs[id]);
    StepTouches(s, e, id, t);
    WorkerStepKeepsEnd(s.jobs[id], e, t.jobs[id]);
  }

  lemma OtherStepOfEnded(s: System, e: Step, id: string, t: System)
    requires id in s.jobs && Terminal(s.jobs[id].row.status) && !OwnStep(s, e, id) && t == Apply(s, e)
    ensures id in t.jobs && t.jobs[id] == s.jobs[id]
  {
    if e.DecisionPosted? {
      DecisionOnlyRestarts(s, e, id, t);
    } else {
      StepTouches(s, e, id, t);
    }
  }

  /**
   A job that has ended keeps its status at every step, except for one: when its `run` rejected after storing a
   success, the router's handler makes it failed.
   */
  lemma EndedStatusChangesExactly(s: System, e: Step, id: string, t: System)
    requires Inv(s) && id in s.jobs && Terminal(s.jobs[id].row.status) && t == Apply(s, e)
    ensures id in t.jobs
    ensures t.jobs[id].row.status
            == if OwnStep(s, e, id) && e.RejectionCaught? then Failed else s.jobs[id].row.status
  {
    if OwnStep(s, e, id) {
      OwnStepOfEnded(s, e, id, t);
    } else {
      OtherStepOfEnded(s, e, id, t);
    }
  }

  ghost function StatusAfter(steps: seq<Step>, id: string): Option<JobStatus> {
    var jobs := Run(EMPTY, steps).jobs;
    if id in jobs then Some(jobs[id].row.status) else None
  }

  ghost predicate HasEnded(steps: seq<Step>, id: string) {
    var status := StatusAfter(steps, id);
    status.Some? && Terminal(status.value)
  }

  /** How the status of an ended job may differ later, and that its success is announced no more. */
  ghost predicate Kept(steps: seq<Step>, later: seq<Step>, id: string) {
    && HasEnded(later, id) && (Threw(OfSuccess, later, id) <==> Threw(OfSuccess, steps, id))
    && (|| StatusAfter(later, id) == StatusAfter(steps, id)
        || (Threw(OfSuccess, steps, id) && StatusAfter(later, id) == Some(Failed)))
  }

  lemma OneMoreStepKeeps(steps: seq<Step>, e: Step, id: string)
    requires HasEnded(steps, id)
    ensures Kept(steps, steps + [e], id)
  {
    var s := Run(EMPTY, steps);
    RunKeepsInv(steps);
    StepAfter(steps, e);
    AllRunsFit(steps, id);
    assert JobOk(s.jobs[id]);
    EndedStatusChangesExactly(s, e, id, Apply(s, e));
    EndedJobThrowsNoSuccess(s, e, id);
    ThrewSoFar(OfSuccess, steps, e, id);
  }

  /**
   The status of an ended job is final, unless a subscriber threw at the announcement of its success; then it may
   still become failed.
   */
  lemma {:induction false} EndedStatusIsFinal(steps: seq<Step>, more: seq<Step>, id: string)
    requires HasEnded(steps, id)
    ensures Kept(steps, steps + more, id)
    decreases |more|
  {
    if more == [] {
      assert steps + more == steps;
    } else {
      var n := |more| - 1;
      var before := steps + more[..n];
      EndedStatusIsFinal(steps, more[..n], id);
      OneMoreStepKeeps(before, more[n], id);
      KeptChains(steps, before, before + [more[n]], id);
      assert before + [more[n]] == steps + more;
    }
  }

  lemma KeptChains(a: seq<Step>, b: seq<Step>, c: seq<Step>, id: string)
    requires Kept(a, b, id) && Kept(b, c, id)
    ensures Kept(a, c, id)
  {
  }

  /**
   And it does: no continuation changes it exactly when no subscriber threw there, or the job has become failed already.
   */
  lemma EndedStatusIsFinalExactly(steps: seq<Step>, id: string)
    requires HasEnded(steps, id)
    ensures (forall more :: StatusAfter(steps + more, id) == StatusAfter(steps, id))
            <==> !Threw(OfSuccess, steps, id) || StatusAfter(steps, id) == Some(Failed)
  {
    forall more
      ensures || StatusAfter(steps + more, id) == StatusAfter(steps, id)
              || (Threw(OfSuccess, steps, id) && StatusAfter(steps + more, id) == Some(Failed))
    {
      EndedStatusIsFinal(steps, more, id);
    }
    if Threw(OfSuccess, steps, id) && StatusAfter(steps, id) != Some(Failed) {
      CaughtAfterSuccess(steps, id);
    }
  }

  /** The run that goes on to the router's handler. */
  lemma CaughtAfterSuccess(steps: seq<Step>, id: string)
    requires HasEnded(steps, id) && Threw(OfSuccess, steps, id) && StatusAfter(steps, id) != Some(Failed)
    ensures StatusAfter(steps + [RejectionCaught(id, 0)], id) == Some(Failed)
  {
    var caught := RejectionCaught(id, 0);
    var s := Run(EMPTY, steps);
    AllRunsFit(steps, id);
    RunKeepsInv(steps);
    assert JobOk(s.jobs[id]);
    assert Enabled(s, caught);
    StepAfter(steps, caught);
    EndedStatusChangesExactly(s, caught, id, Apply(s, caught));
  }

  // Runs in which it happens

  /** The worker of the backend runs the seven phases; it is given no trash check. */
  function DefaultConfig(): Config {
    Config(DEFAULT_HANDLERS, false, 20000)
  }

  function PassedPhase(): Step {
    HandlerEnded("j", Returned(PhaseResult(PhaseCompleted, 0, 0, 0, None, [])), 0, [])
  }

  function Beginning(scope: Scope, mode: ConflictMode): seq<Step> {
    [CreateJob("j", DefaultConfig(), scope, Original, mode), StartWorker("j", 0, [])]
  }

  /** A job on the original site whose worker has started and whose first `n` phases have passed. */
  function Passing(scope: Scope, mode: ConflictMode, n: nat): seq<Step> {
    if n == 0 then Beginning(scope, mode) else Passing(scope, mode, n - 1) + [PassedPhase()]
  }

  predicate AtPhase(s: System, n: nat) {
    && "j" in s.jobs && s.jobs["j"].config == DefaultConfig()
    && s.jobs["j"].place == if n < |DEFAULT_HANDLERS| then InPhase(n, 0, None) else EngineLeft(Done(EngineCompleted))
  }

  lemma Started(scope: Scope, mode: ConflictMode, steps: seq<Step>, s: System)
    requires steps == Beginning(scope, mode) && s == Run(EMPTY, steps)
    ensures AtPhase(s, 0)
  {
    StepAfter([], steps[0]);
    StepAfter([steps[0]], steps[1]);
    assert [] + [steps[0]] == [steps[0]] && [steps[0]] + [steps[1]] == steps;
    assert s == Apply(Apply(EMPTY, steps[0]), steps[1]);
  }

  lemma PhasePasses(j: Job, e: Step, t: Job)
    requires j.place.InPhase? && j.place.totalErrors == 0 && j.place.waiting == None && j.place.i < |j.config.handlers|
    requires e == PassedPhase() && t == Moved(j, e)
    ensures t.config == j.config
    ensures t.place == if j.place.i + 1 < |j.config.handlers| then InPhase(j.place.i + 1, 0, None)
                       else EngineLeft(Done(EngineCompleted))
  {
  }

  lemma NextPhasePasses(s: System, i: nat, e: Step, t: System)
    requires i < |DEFAULT_HANDLERS| && e == PassedPhase() && AtPhase(s, i) && t == Apply(s, e)
    ensures AtPhase(t, i + 1)
  {
    StepTouches(s, e, "j", t);
    PhasePasses(s.jobs["j"], e, Moved(s.jobs["j"], e));
  }

  lemma {:induction false} PhasesPass(scope: Scope, mode: ConflictMode, n: nat, steps: seq<Step>, s: System)
    requires n <= |DEFAULT_HANDLERS| && steps == Passing(scope, mode, n) && s == Run(EMPTY, steps)
    ensures AtPhase(s, n)
  {
    if n == 0 {
      Started(scope, mode, steps, s);
    } else {
      var before, e := Passing(scope, mode, n - 1), PassedPhase();
      var u := Run(EMPTY, before);
      PhasesPass(scope, mode, n - 1, before, u);
      StepAfter(before, e);
      NextPhasePasses(u, n - 1, e, s);
    }
  }

  lemma ThrowingSubscriberFailsACompletedJob(j: Job, now: int, later: int)
    requires j.place.EngineLeft? && j.place.how.Done? && !j.place.how.outcome.EngineFailed?
    ensures var t := AfterEngine(j, now, [true]);
            && t.row.status == FinalStatus(j.place.how.outcome) && t.events == j.events + [Complete(t.row.status)]
            && t.place.Failing? && CatchRejection(t, later).row.status == Failed
  {
  }

  lemma SuccessIsAnnounced(s: System, e: Step, t: System)
    requires AtPhase(s, |DEFAULT_HANDLERS|) && e == EngineResumed("j", 1, [true]) && t == Apply(s, e)
    ensures "j" in t.jobs && t.jobs["j"].place == Failing
    ensures t.jobs["j"].row.status == Completed && LastIs(t.jobs["j"].events, Completed)
  {
    StepTouches(s, e, "j", t);
    assert t.jobs["j"] == AfterEngine(s.jobs["j"], 1, [true]);
    ThrowingSubscriberFailsACompletedJob(s.jobs["j"], 1, 2);
  }

  lemma RejectionIsCaught(s: System, e: Step, t: System)
    requires "j" in s.jobs && s.jobs["j"].place == Failing && e == RejectionCaught("j", 2) && t == Apply(s, e)
    ensures "j" in t.jobs && t.jobs["j"].row.status == Failed && t.jobs["j"].events == s.jobs["j"].events
  {
    StepTouches(s, e, "j", t);
  }

  /**
   A run of the backend's own seven phases, all passed, in which a subscriber throws at the announcement of the
   success: the job is stored and announced as completed, and then stored as failed.
   */
  lemma CompletedJobCanFail(scope: Scope, mode: ConflictMode)
    ensures var announced := Passing(scope, mode, 7) + [EngineResumed("j", 1, [true])];
            var caught := announced + [RejectionCaught("j", 2)];
            && StatusAfter(announced, "j") == Some(Completed) && StatusAfter(caught, "j") == Some(Failed)
            && LastIs(Run(EMPTY, caught).jobs["j"].events, Completed)
  {
    var passed := Passing(scope, mode, 7);
    var announced := passed + [EngineResumed("j", 1, [true])];
    PhasesPass(scope, mode, 7, passed, Run(EMPTY, passed));
    StepAfter(passed, EngineResumed("j", 1, [true]));
    SuccessIsAnnounced(Run(EMPTY, passed), EngineResumed("j", 1, [true]), Run(EMPTY, announced));
    StepAfter(announced, RejectionCaught("j", 2));
    RejectionIsCaught(Run(EMPTY, announced), RejectionCaught("j", 2),
                      Run(EMPTY, announced + [RejectionCaught("j", 2)]));
  }

  lemma ExportBegins(scope: Scope, mode: ConflictMode, steps: seq<Step>, s: System)
    requires steps == [CreateJob("j", DefaultConfig(), scope, Export, mode), StartWorker("j", 0, [])]
    requires s == Run(EMPTY, steps)
    ensures "j" in s.jobs && s.jobs["j"].place == Downloading && s.jobs["j"].events == []
  {
    StepAfter([], steps[0]);
    StepAfter([steps[0]], steps[1]);
    assert [] + [steps[0]] == [steps[0]] && [steps[0]] + [steps[1]] == steps;
    assert s == Apply(Apply(EMPTY, steps[0]), steps[1]);
  }

  lemma ExportEndsTwice(j: Job, t: Job)
    requires j.events == [] && t == DownloadEnds(j, 1, [true])
    ensures t.row.status == Failed && t.events == [Complete(Completed), Complete(Failed)]
  {
  }

  /** An export whose success is announced to a throwing subscriber announces both ends, and ends as failed. */
  lemma ExportCanAnnounceBothEnds(scope: Scope, mode: ConflictMode, path: string, steps: seq<Step>, last: Step)
    requires steps == [CreateJob("j", DefaultConfig(), scope, Export, mode), StartWorker("j", 0, [])]
    requires last == Downloaded("j", path, 1, [true])
    ensures StatusAfter(steps + [last], "j") == Some(Failed)
    ensures Run(EMPTY, steps + [last]).jobs["j"].events == [Complete(Completed), Complete(Failed)]
  {
    var s := Run(EMPTY, steps);
    StepAfter(steps, last);
    ExportBegins(scope, mode, steps, s);
    StepTouches(s, last, "j", Apply(s, last));
    ExportEndsTwice(s.jobs["j"], DownloadEnds(s.jobs["j"], 1, [true]));
  }
}
