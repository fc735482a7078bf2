/**
 What whole executions of the phases leave in the job row and on its channel, read off the handlers' outcomes alone
 (src/restore/RestoreEngine.ts). A handler that throws is one of these outcomes.
 */
module EngineHistory {
  import opened Common
  import opened RestoreStore
  import opened RestoreEngine

  predicate FailedOutcome(outcome: Outcome) {
    outcome == HandlerThrew || outcome.result.status == PhaseFailed
  }

  /** The errors the handler reports; one that throws counts as one. */
  function ErrorsOf(outcome: Outcome): nat {
    if outcome == HandlerThrew then 1 else outcome.result.errorCount
  }

  /** The handler's own diagnostic, or what its phase is said to have failed by. */
  function ReasonOf(phase: Phase, outcome: Outcome): Diagnostic {
    if outcome == HandlerThrew then UnhandledPhaseError
    else if outcome.result.diagnostic.Some? then outcome.result.diagnostic.value
    else PhaseFailedBy(phase)
  }

  /** The issues a phase warns of: only the last phase does. */
  function WarnedOf(phase: Phase, outcome: Outcome): seq<string> {
    if phase == PostIssuePhase && outcome.Returned? then outcome.result.affectedIssueIds else []
  }

  function Untouched(phase: Phase): PhaseProgress {
    PhaseProgress(phase, PhasePending, 0, 0, 0, None, None)
  }

  /** What is stored of a phase that began and ended at these times. */
  function StoredResult(phase: Phase, outcome: Outcome, startedAt: int, endedAt: int): PhaseProgress {
    match outcome
    case HandlerThrew => PhaseProgress(phase, PhaseFailed, 0, 0, 1, Some(startedAt), Some(endedAt))
    case Returned(r) =>
      PhaseProgress(phase, r.status, r.total, r.processed, r.errorCount, Some(startedAt), Some(endedAt))
  }

  /** No phase from `i` on fails before phase `k`. */
  predicate Reaches(script: seq<Awaited>, i: nat, k: nat)
    requires k <= |script|
  {
    forall m :: i <= m < k ==> !FailedOutcome(script[m].outcome)
  }

  /** The phase that fails first, from `i` on, or the number of phases. */
  function FirstFailure(script: seq<Awaited>, i: nat): (f: nat)
    requires i <= |script|
    ensures i <= f <= |script| && Reaches(script, i, f) && (f < |script| ==> FailedOutcome(script[f].outcome))
    decreases |script| - i
  {
    if i == |script| || FailedOutcome(script[i].outcome) then i else FirstFailure(script, i + 1)
  }

  /** The errors of the phases from `i` up to `k`. */
  function ErrorsUpTo(script: seq<Awaited>, i: nat, k: nat): nat
    requires i <= k <= |script|
    decreases k - i
  {
    if i == k then 0 else ErrorsOf(script[i].outcome) + ErrorsUpTo(script, i + 1, k)
  }

  /** The issues of the last warning among the phases from `i` up to `k`, if one of them warned. */
  function LastWarning(handlers: seq<Phase>, script: seq<Awaited>, i: nat, k: nat): Option<seq<string>>
    requires i <= k <= |script| == |handlers|
    decreases k - i
  {
    if i == k then None
    else
      var later, own := LastWarning(handlers, script, i + 1, k), WarnedOf(handlers[i], script[i].outcome);
      if later.Some? then later else if own != [] then Some(own) else None
  }

  /** What the engine announces of the phases from `i` on, among what is announced meanwhile. */
  function Log(handlers: seq<Phase>, script: seq<Awaited>, i: nat): seq<Event>
    requires i <= |script| == |handlers|
    decreases |script| - i
  {
    if i == |handlers| then []
    else
      [PhaseTransition(handlers[i])] + script[i].meanwhile.published
      + if FailedOutcome(script[i].outcome) then [PhaseFailure(handlers[i], ReasonOf(handlers[i], script[i].outcome))]
        else
          (if WarnedOf(handlers[i], script[i].outcome) == [] then []
           else [AdfMediaWarning(WarnedOf(handlers[i], script[i].outcome))])
          + Log(handlers, script, i + 1)
  }

  // One phase

  /** Phase `i` is awaited, having begun at `startedAt`. */
  ghost predicate Awaits(x: Execution, handlers: seq<Phase>, i: nat, totalErrors: nat, startedAt: int) {
    && i < |handlers| == |x.row.phaseProgress| && x.at == AwaitingHandler(i, totalErrors)
    && x.row.currentPhase == Some(handlers[i])
    && x.row.phaseProgress[i] == Untouched(handlers[i]).(status := PhaseRunning, startedAt := Some(startedAt))
  }

  /** A phase that fails ends the execution. */
  lemma PhaseHalts(x: Execution, handlers: seq<Phase>, i: nat, totalErrors: nat, startedAt: int, a: Awaited,
                   next: Execution)
    requires Awaits(x, handlers, i, totalErrors, startedAt) && a.throwing == [] && FailedOutcome(a.outcome)
    requires next == Step(x, handlers, a)
    ensures var reason := ReasonOf(handlers[i], a.outcome);
            && next.at == Done(EngineFailed(reason, handlers[i]))
            && next.events == x.events + a.meanwhile.published + [PhaseFailure(handlers[i], reason)]
            && next.row == RowAfter(x.row, a.meanwhile).(
                 phaseProgress := x.row.phaseProgress[i := StoredResult(handlers[i], a.outcome, startedAt, a.now)],
                 status := Failed, failureDiagnostic := Some(reason), stalled := false, completedAt := Some(a.now))
  {
  }

  /** The row after a phase that did not fail, before the next one begins. */
  ghost predicate Passed(before: RestoreJob, handlers: seq<Phase>, i: nat, startedAt: int, a: Awaited, row: RestoreJob)
    requires i < |handlers| == |before.phaseProgress|
  {
    var warned := WarnedOf(handlers[i], a.outcome);
    row == RowAfter(before, a.meanwhile).(
      phaseProgress := before.phaseProgress[i := StoredResult(handlers[i], a.outcome, startedAt, a.now)],
      errorCount := before.errorCount + ErrorsOf(a.outcome),
      adfMediaWarningEmitted := before.adfMediaWarningEmitted || warned != [],
      adfMediaWarnings := if warned != [] then warned else before.adfMediaWarnings)
  }

  /** Any other phase is followed by the next one, or by the end. */
  lemma PhasePasses(x: Execution, handlers: seq<Phase>, i: nat, totalErrors: nat, startedAt: int, a: Awaited,
                    next: Execution) returns (row: RestoreJob, events: seq<Event>)
    requires Awaits(x, handlers, i, totalErrors, startedAt) && a.throwing == [] && !FailedOutcome(a.outcome)
    requires next == Step(x, handlers, a)
    ensures Passed(x.row, handlers, i, startedAt, a, row)
    ensures events == x.events + a.meanwhile.published
                      + if WarnedOf(handlers[i], a.outcome) == [] then []
                        else [AdfMediaWarning(WarnedOf(handlers[i], a.outcome))]
    ensures next == BeginPhase(row, events, handlers, i + 1, totalErrors + ErrorsOf(a.outcome), a.now, false)
  {
    var result := a.outcome.result;
    row := CountedRow(RowAfter(x.row, a.meanwhile), i, result, a.now);
    events := x.events + a.meanwhile.published;
    if Warns(handlers[i], result) {
      row, events := WarnedRow(row, result.affectedIssueIds), events + [AdfMediaWarning(result.affectedIssueIds)];
    } else {
      assert events + [] == events;
    }
  }

  /** The phases from `i` on are pending. */
  ghost predicate PendingFrom(row: RestoreJob, handlers: seq<Phase>, i: nat) {
    && |row.phaseProgress| == |handlers|
    && forall k :: i <= k < |handlers| ==> row.phaseProgress[k] == Untouched(handlers[k])
  }

  lemma BeginAwaits(row: RestoreJob, events: seq<Event>, handlers: seq<Phase>, i: nat, totalErrors: nat, now: int,
                    x: Execution)
    requires i < |handlers| && PendingFrom(row, handlers, i)
    requires x == BeginPhase(row, events, handlers, i, totalErrors, now, false)
    ensures Awaits(x, handlers, i, totalErrors, now) && PendingFrom(x.row, handlers, i + 1)
    ensures x.events == events + [PhaseTransition(handlers[i])]
    ensures x.row == row.(currentPhase := Some(handlers[i]), phaseProgress := x.row.phaseProgress)
    ensures forall k :: 0 <= k < |handlers| && k != i ==> x.row.phaseProgress[k] == row.phaseProgress[k]
  {
  }

  lemma PassedLeaves(row: RestoreJob, x: Execution, handlers: seq<Phase>, i: nat, startedAt: int, a: Awaited,
                     row': RestoreJob)
    requires i < |handlers| == |row.phaseProgress| == |x.row.phaseProgress| && PendingFrom(x.row, handlers, i + 1)
    requires forall k :: 0 <= k < |handlers| && k != i ==> x.row.phaseProgress[k] == row.phaseProgress[k]
    requires Passed(x.row, handlers, i, startedAt, a, row')
    ensures PendingFrom(row', handlers, i + 1)
    ensures row'.phaseProgress[i] == StoredResult(handlers[i], a.outcome, startedAt, a.now)
    ensures forall k :: 0 <= k < |handlers| && k != i ==> row'.phaseProgress[k] == row.phaseProgress[k]
  {
  }

  // Subscribers that throw

  /** What is published from the end of phase `i` to the next await. */
  function Publications(handlers: seq<Phase>, i: nat, outcome: Outcome): seq<Event>
    requires i < |handlers|
  {
    if FailedOutcome(outcome) then [PhaseFailure(handlers[i], ReasonOf(handlers[i], outcome))]
    else
      (if WarnedOf(handlers[i], outcome) == [] then [] else [AdfMediaWarning(WarnedOf(handlers[i], outcome))])
      + if i + 1 < |handlers| then [PhaseTransition(handlers[i + 1])] else []
  }

  /** A subscriber throws at publication `k` of `n`, and none before. */
  predicate FirstThrow(throwing: seq<bool>, n: nat, k: nat) {
    k < n && k < |throwing| && throwing[k] && forall m :: 0 <= m < k ==> !throwing[m]
  }

  predicate NoThrow(throwing: seq<bool>, n: nat) {
    forall m :: 0 <= m < n && m < |throwing| ==> !throwing[m]
  }

  /** Without an exception the phase ends in the next await, or in the result, and all its publications go out. */
  lemma CalmPhase(x: Execution, handlers: seq<Phase>, i: nat, totalErrors: nat, startedAt: int, a: Awaited,
                  calm: Execution)
    requires Awaits(x, handlers, i, totalErrors, startedAt) && calm == Step(x, handlers, a.(throwing := []))
    ensures calm.events == x.events + a.meanwhile.published + Publications(handlers, i, a.outcome)
    ensures calm.at != Rejected
    ensures NoThrow(a.throwing, |Publications(handlers, i, a.outcome)|) ==> Step(x, handlers, a) == calm
  {
    var events, warned := x.events + a.meanwhile.published, WarnedOf(handlers[i], a.outcome);
    assert events + [] == events;
    if !FailedOutcome(a.outcome) && warned != [] && i + 1 < |handlers| {
      var all := [AdfMediaWarning(warned), PhaseTransition(handlers[i + 1])];
      assert Publications(handlers, i, a.outcome) == all && all[0] == AdfMediaWarning(warned);
      assert events + all == events + [AdfMediaWarning(warned)] + [PhaseTransition(handlers[i + 1])];
    }
  }

  /**
   A subscriber that throws at a publication ends the execution there, as rejected: nothing more is published, but the
   row has been written as without the exception, except that after a warning no phase begins and none is left.
   */
  lemma ThrowEndsExecution(x: Execution, handlers: seq<Phase>, i: nat, totalErrors: nat, startedAt: int, a: Awaited,
                           next: Execution, k: nat)
    requires Awaits(x, handlers, i, totalErrors, startedAt) && next == Step(x, handlers, a)
    requires FirstThrow(a.throwing, |Publications(handlers, i, a.outcome)|, k)
    ensures next.at == Rejected
    ensures var all := Publications(handlers, i, a.outcome);
            && next.events == x.events + a.meanwhile.published + all[..k + 1]
            && (!all[k].AdfMediaWarning? ==> next.row == Step(x, handlers, a.(throwing := [])).row)
            && (all[k].AdfMediaWarning? ==> Passed(x.row, handlers, i, startedAt, a, next.row))
  {
    var events, warned := x.events + a.meanwhile.published, WarnedOf(handlers[i], a.outcome);
    var all := Publications(handlers, i, a.outcome);
    if FailedOutcome(a.outcome) {
      assert all[..1] == [PhaseFailure(handlers[i], ReasonOf(handlers[i], a.outcome))];
    } else if warned == [] {
      assert all[..1] == [PhaseTransition(handlers[i + 1])];
    } else if k == 0 {
      assert all[..1] == [AdfMediaWarning(warned)];
    } else {
      assert all[..2] == [AdfMediaWarning(warned), PhaseTransition(handlers[i + 1])];
      assert events + all[..2] == events + [AdfMediaWarning(warned)] + [PhaseTransition(handlers[i + 1])];
    }
  }

  /** So does one that throws when the first phase is announced; an execution without phases announces nothing. */
  lemma StartAnnounces(row: RestoreJob, events: seq<Event>, handlers: seq<Phase>, now: int, throws: bool)
    ensures var x := Start(row, events, handlers, now, throws);
            && (handlers != [] ==>
                  && x.events == events + [PhaseTransition(handlers[0])] && (x.at == Rejected <==> throws)
                  && (!throws ==> Awaits(x, handlers, 0, 0, now))
                  && x.row == Start(row, events, handlers, now, false).row)
            && (handlers == [] ==>
                  x == Execution(row.(currentPhase := None, phaseProgress := []), events, Done(EngineCompleted)))
  {
    if handlers != [] {
      BeginAwaits(row.(phaseProgress := InitialProgress(handlers)), events, handlers, 0, 0, now,
                  Start(row, events, handlers, now, false));
    }
  }

  // Whole executions

  /** The end of an execution that stood before phase `i`, with this row, when it began at `now`. */
  ghost predicate EndsSo(row: RestoreJob, events: seq<Event>, handlers: seq<Phase>, i: nat, totalErrors: nat,
                         script: seq<Awaited>, end: Execution)
    requires i <= |script| == |handlers|
  {
    var f := FirstFailure(script, i);
    && end.events == events + Log(handlers, script, i)
    && end.row.errorCount == row.errorCount + ErrorsUpTo(script, i, f)
    && var warning := LastWarning(handlers, script, i, f);
    && end.row.adfMediaWarningEmitted == (row.adfMediaWarningEmitted || warning.Some?)
    && end.row.adfMediaWarnings == (if warning.Some? then warning.value else row.adfMediaWarnings)
    && (f < |handlers| ==>
          var reason := ReasonOf(handlers[f], script[f].outcome);
          && end.at == Done(EngineFailed(reason, handlers[f]))
          && end.row.status == Failed && end.row.failureDiagnostic == Some(reason)
          && end.row.currentPhase == Some(handlers[f]) && end.row.completedAt == Some(script[f].now))
    && (f == |handlers| ==>
          var total := totalErrors + ErrorsUpTo(script, i, f);
          && end.at == Done(if total == 0 then EngineCompleted else EngineCompletedWithErrors(total))
          && end.row.currentPhase == None && end.row.failureDiagnostic == row.failureDiagnostic
          && end.row.completedAt == row.completedAt)
  }

  lemma LogAssociates(events: seq<Event>, a: seq<Event>, b: seq<Event>, c: seq<Event>, d: seq<Event>)
    ensures events + a + b + c + d == events + (a + b + (c + d))
  {
  }

  lemma {:induction false} ExecutionEndsSo(row: RestoreJob, events: seq<Event>, handlers: seq<Phase>, i: nat,
                                           totalErrors: nat, now: int, script: seq<Awaited>, x: Execution,
                                           end: Execution)
    requires i <= |script| == |handlers| && PendingFrom(row, handlers, i) && NoSubscriberThrows(script)
    requires x == BeginPhase(row, events, handlers, i, totalErrors, now, false)
    requires end == Continue(x, handlers, script[i..])
    ensures EndsSo(row, events, handlers, i, totalErrors, script, end)
    decreases |handlers| - i
  {
    if i == |handlers| {
      NoneLeftEndsSo(row, events, handlers, totalErrors, now, script, x);
      return;
    }
    var a := script[i];
    assert a in script;
    BeginAwaits(row, events, handlers, i, totalErrors, now, x);
    ContinueOnce(x, handlers, script, i);
    var next := Step(x, handlers, a);
    if FailedOutcome(a.outcome) {
      HaltEndsSo(row, events, handlers, i, totalErrors, now, script, x, next);
    } else {
      var row', events' := PhasePasses(x, handlers, i, totalErrors, now, a, next);
      PassedLeaves(row, x, handlers, i, now, a, row');
      ExecutionEndsSo(row', events', handlers, i + 1, totalErrors + ErrorsOf(a.outcome), a.now, script, next, end);
      PassEndsSo(row, events, handlers, i, totalErrors, now, script, x, row', events', end);
    }
  }

  lemma NoneLeftEndsSo(row: RestoreJob, events: seq<Event>, handlers: seq<Phase>, totalErrors: nat, now: int,
                       script: seq<Awaited>, x: Execution)
    requires |script| == |handlers| && x == BeginPhase(row, events, handlers, |handlers|, totalErrors, now, false)
    ensures EndsSo(row, events, handlers, |handlers|, totalErrors, script, x)
  {
    assert events + [] == events;
  }

  lemma HaltEndsSo(row: RestoreJob, events: seq<Event>, handlers: seq<Phase>, i: nat, totalErrors: nat, now: int,
                   script: seq<Awaited>, x: Execution, next: Execution)
    requires i < |script| == |handlers| && FailedOutcome(script[i].outcome) && script[i].throwing == []
    requires Awaits(x, handlers, i, totalErrors, now) && next == Step(x, handlers, script[i])
    requires x.events == events + [PhaseTransition(handlers[i])]
    requires x.row == row.(currentPhase := Some(handlers[i]), phaseProgress := x.row.phaseProgress)
    ensures EndsSo(row, events, handlers, i, totalErrors, script, next)
  {
    assert FirstFailure(script, i) == i;
    PhaseHalts(x, handlers, i, totalErrors, now, script[i], next);
    LogAssociates(events, [PhaseTransition(handlers[i])], script[i].meanwhile.published,
                  [PhaseFailure(handlers[i], ReasonOf(handlers[i], script[i].outcome))], []);
  }

  lemma PassEndsSo(row: RestoreJob, events: seq<Event>, handlers: seq<Phase>, i: nat, totalErrors: nat, now: int,
                   script: seq<Awaited>, x: Execution, row': RestoreJob, events': seq<Event>, end: Execution)
    requires i < |script| == |handlers| == |x.row.phaseProgress| && !FailedOutcome(script[i].outcome)
    requires x.events == events + [PhaseTransition(handlers[i])]
    requires x.row == row.(currentPhase := Some(handlers[i]), phaseProgress := x.row.phaseProgress)
    requires Passed(x.row, handlers, i, now, script[i], row')
    requires events' == x.events + script[i].meanwhile.published
                        + if WarnedOf(handlers[i], script[i].outcome) == [] then []
                          else [AdfMediaWarning(WarnedOf(handlers[i], script[i].outcome))]
    requires EndsSo(row', events', handlers, i + 1, totalErrors + ErrorsOf(script[i].outcome), script, end)
    ensures EndsSo(row, events, handlers, i, totalErrors, script, end)
  {
    var warned := WarnedOf(handlers[i], script[i].outcome);
    LogAssociates(events, [PhaseTransition(handlers[i])], script[i].meanwhile.published,
                  if warned == [] then [] else [AdfMediaWarning(warned)], Log(handlers, script, i + 1));
  }

  /**
   Unless a subscriber throws, an execution of all phases ends as the outcomes say: at the first handler that fails or
   throws, with its diagnostic, or completed with the sum of the errors; and exactly these phases, failures and
   warnings are announced, in order.
   */
  lemma EndFollowsOutcomes(row: RestoreJob, events: seq<Event>, handlers: seq<Phase>, now: int, script: seq<Awaited>)
    requires |script| == |handlers| && NoSubscriberThrows(script)
    ensures EndsSo(row, events, handlers, 0, 0, script,
                   Continue(Start(row, events, handlers, now, false), handlers, script))
  {
    var pending := row.(phaseProgress := InitialProgress(handlers));
    assert script[0..] == script;
    ExecutionEndsSo(pending, events, handlers, 0, 0, now, script, Start(row, events, handlers, now, false),
                    Continue(Start(row, events, handlers, now, false), handlers, script));
  }

  lemma ReachesNext(script: seq<Awaited>, i: nat, k: nat)
    requires i < |script| && k <= |script|
    ensures k > i ==> (Reaches(script, i, k) <==> !FailedOutcome(script[i].outcome) && Reaches(script, i + 1, k))
    ensures k <= i ==> Reaches(script, i, k)
  {
  }

  /** The stored progress of phase `k` after an execution that stood before phase `i`. */
  lemma {:induction false} ProgressEndsSo(row: RestoreJob, events: seq<Event>, handlers: seq<Phase>, i: nat,
                                          totalErrors: nat, now: int, script: seq<Awaited>, x: Execution,
                                          end: Execution, k: nat)
    requires i <= |script| == |handlers| && PendingFrom(row, handlers, i) && NoSubscriberThrows(script)
    requires x == BeginPhase(row, events, handlers, i, totalErrors, now, false) && k < |handlers|
    requires end == Continue(x, handlers, script[i..])
    ensures |end.row.phaseProgress| == |handlers|
    ensures end.row.phaseProgress[k]
            == if k < i then row.phaseProgress[k]
               else if !Reaches(script, i, k) then Untouched(handlers[k])
               else StoredResult(handlers[k], script[k].outcome, if k == i then now else script[k - 1].now,
                                 script[k].now)
    decreases |handlers| - i
  {
    if i < |handlers| {
      var a := script[i];
      assert a in script;
      BeginAwaits(row, events, handlers, i, totalErrors, now, x);
      ContinueOnce(x, handlers, script, i);
      var next := Step(x, handlers, a);
      ReachesNext(script, i, k);
      if FailedOutcome(a.outcome) {
        PhaseHalts(x, handlers, i, totalErrors, now, a, next);
      } else {
        var row', events' := PhasePasses(x, handlers, i, totalErrors, now, a, next);
        PassedLeaves(row, x, handlers, i, now, a, row');
        ProgressEndsSo(row', events', handlers, i + 1, totalErrors + ErrorsOf(a.outcome), a.now, script, next, end, k);
      }
    }
  }

  /**
   And every phase up to there is stored with the counts of its handler, the time at which it began, which is when the
   one before ended, and the time at which it ended; the others are untouched.
   */
  lemma ProgressFollowsOutcomes(row: RestoreJob, events: seq<Event>, handlers: seq<Phase>, now: int,
                                script: seq<Awaited>, k: nat)
    requires |script| == |handlers| && NoSubscriberThrows(script) && k < |handlers|
    ensures var end := Continue(Start(row, events, handlers, now, false), handlers, script);
            && |end.row.phaseProgress| == |handlers|
            && end.row.phaseProgress[k]
               == if Reaches(script, 0, k)
                  then StoredResult(handlers[k], script[k].outcome, if k == 0 then now else script[k - 1].now,
                                    script[k].now)
                  else Untouched(handlers[k])
  {
    var pending := row.(phaseProgress := InitialProgress(handlers));
    assert script[0..] == script;
    ProgressEndsSo(pending, events, handlers, 0, 0, now, script, Start(row, events, handlers, now, false),
                   Continue(Start(row, events, handlers, now, false), handlers, script), k);
  }
}
