/**
 The project handler inside the life cycle. `ProjectPhase` follows one run of its loop; here the loop of every job is
 suspended at each of its awaits (src/restore/RestorePhaseHandlers.ts), between which any step of the system may happen,
 and the decision it finds is the one the endpoint stored.
 */
module ProjectRuns {
  import opened Common
  import opened RestoreStore
  import opened RestoreEngine
  import opened RestoreLifecycle
  import opened ProjectPhase

  /** A project the loop is done with: whether it existed, the question it led to, and whether it was written. */
  datatype Turn = Turn(existed: bool, question: Option<string>, wrote: bool)

  /** The await at which the loop is suspended. */
  datatype Await = OnExistence | OnDecision(conflictId: string) | OnWrite(existed: bool, question: Option<string>)

  /** A run of the handler: its context, what it is done with, and where it is. */
  datatype Handling = Handling(
    mode: ConflictMode,
    keys: seq<string>,
    turns: seq<Turn>,
    written: seq<string>,
    at: Await)

  datatype Runs = Runs(sys: System, handling: map<string, Handling>)

  datatype Move =
    | Elsewhere(e: Step)
    | ExistenceAnswered(id: string, existence: Option<bool>, conflictId: string, subscriberThrows: bool, now: int,
                        throwing: seq<bool>)
    | WriteAnswered(id: string, succeeds: bool, now: int, throwing: seq<bool>)
    | DecisionPolled(id: string)
    | HandlerReturned(id: string, now: int, throwing: seq<bool>)

  predicate InProjects(j: Job) {
    j.place.InPhase? && j.place.i < |j.config.handlers| && j.config.handlers[j.place.i].ProjectPhase?
  }

  /** Steps that only the project handler of a job takes. */
  predicate ByHandler(e: Step) {
    e.Asked? || e.AskedAndThrew? || e.Polled? || e.HandlerEnded?
  }

  /** The job has entered the project phase in the step from `s` to `t`. */
  predicate Enters(s: System, t: System, id: string) {
    && id in t.jobs && InProjects(t.jobs[id])
    && (id in s.jobs && InProjects(s.jobs[id]) ==> s.jobs[id].place.i != t.jobs[id].place.i)
  }

  function NewHandling(j: Job): Handling {
    Handling(j.row.conflictMode, ProjectsFromScope(j.row.scope), [], [], OnExistence)
  }

  /** A step of the system; a handler begins when its job enters the phase. */
  function Take(w: Runs, e: Step): Runs {
    var t := Apply(w.sys, e);
    Runs(t, if Enters(w.sys, t, e.id) then w.handling[e.id := NewHandling(t.jobs[e.id])] else w.handling)
  }

  function Set(w: Runs, id: string, h: Handling): Runs {
    w.(handling := w.handling[id := h])
  }

  function Failure(h: Handling): Outcome {
    Returned(PhaseResult(PhaseFailed, |h.turns|, |h.keys|, 1, Some(ProjectWriteFailed), []))
  }

  function Success(h: Handling): Outcome {
    Returned(PhaseResult(PhaseCompleted, |h.turns|, |h.keys|, 0, None, []))
  }

  function WithTurn(h: Handling, turn: Turn): Handling {
    h.(turns := h.turns + [turn], at := OnExistence)
  }

  /** The handler of `id` runs and is suspended at an await of this kind. */
  predicate Suspended(w: Runs, id: string) {
    id in w.sys.jobs && InProjects(w.sys.jobs[id]) && id in w.handling
  }

  predicate More(h: Handling) {
    |h.turns| < |h.keys|
  }

  /** The answer to the existence of the next project. */
  function OnAnswer(w: Runs, id: string, existence: Option<bool>, c: string, subscriberThrows: bool, now: int,
                    throwing: seq<bool>): Runs
    requires id in w.handling && More(w.handling[id])
  {
    var h := w.handling[id];
    var key := h.keys[|h.turns|];
    if existence == None then Take(w, HandlerEnded(id, Failure(h), now, throwing))
    else if !existence.value then Set(w, id, h.(at := OnWrite(false, None)))
    else
      match h.mode
      case SkipExisting => Set(w, id, WithTurn(h, Turn(true, None, false)))
      case OverrideExisting => Set(w, id, h.(at := OnWrite(true, None)))
      case Ask =>
        if c in w.sys.conflicts then Take(w, HandlerEnded(id, Failure(h), now, throwing))
        else if subscriberThrows then Take(w, AskedAndThrew(id, c, key, |h.turns|, |h.keys|, now, throwing))
        else Set(Take(w, Asked(id, c, key)), id, h.(at := OnDecision(c)))
  }

  function OnWritten(w: Runs, id: string, succeeds: bool, now: int, throwing: seq<bool>): Runs
    requires id in w.handling && More(w.handling[id]) && w.handling[id].at.OnWrite?
  {
    var h := w.handling[id];
    if succeeds then
      var key := h.keys[|h.turns|];
      Set(w, id, WithTurn(h, Turn(h.at.existed, h.at.question, true)).(written := h.written + [key]))
    else Take(w, HandlerEnded(id, Failure(h), now, throwing))
  }

  /** The poll finds the decision that is stored by now, if any. */
  function OnPoll(w: Runs, id: string): Runs
    requires id in w.handling && w.handling[id].at.OnDecision?
  {
    var h := w.handling[id];
    var c := h.at.conflictId;
    if c in w.sys.conflicts && w.sys.conflicts[c].decision.Some? then
      Set(Take(w, Polled(id)), id,
          if w.sys.conflicts[c].decision.value == Override then h.(at := OnWrite(true, Some(c)))
          else WithTurn(h, Turn(true, Some(c), false)))
    else w
  }

  predicate Possible(w: Runs, m: Move) {
    match m
    case Elsewhere(e) => !(ByHandler(e) && Suspended(w, e.id))
    case ExistenceAnswered(id, _, _, _, _, _) =>
      Suspended(w, id) && w.handling[id].at.OnExistence? && More(w.handling[id])
    case WriteAnswered(id, _, _, _) => Suspended(w, id) && w.handling[id].at.OnWrite? && More(w.handling[id])
    case DecisionPolled(id) => Suspended(w, id) && w.handling[id].at.OnDecision?
    case HandlerReturned(id, _, _) => Suspended(w, id) && w.handling[id].at.OnExistence? && !More(w.handling[id])
  }

  /** A move that is not possible changes nothing. */
  function Do(w: Runs, m: Move): Runs {
    if !Possible(w, m) then w
    else
      match m
      case Elsewhere(e) => Take(w, e)
      case ExistenceAnswered(id, existence, c, subscriberThrows, now, throwing) =>
        OnAnswer(w, id, existence, c, subscriberThrows, now, throwing)
      case WriteAnswered(id, succeeds, now, throwing) => OnWritten(w, id, succeeds, now, throwing)
      case DecisionPolled(id) => OnPoll(w, id)
      case HandlerReturned(id, now, throwing) => Take(w, HandlerEnded(id, Success(w.handling[id]), now, throwing))
  }

  const NOTHING: Runs := Runs(EMPTY, map[])

  function After(moves: seq<Move>): Runs {
    if moves == [] then NOTHING else Do(After(moves[..|moves| - 1]), moves[|moves| - 1])
  }

  // The invariant

  /** The conflict a question led to, decided or not. */
  predicate AskedAs(conflicts: map<string, Conflict>, c: string, id: string, key: string) {
    c in conflicts && conflicts[c].jobId == id && conflicts[c].objectKey == key
  }

  predicate DecidedAs(conflicts: map<string, Conflict>, c: string, decision: Decision) {
    c in conflicts && conflicts[c].decision == Some(decision)
  }

  /** Whether a project is written follows from the mode, or from the stored decision about it. */
  ghost predicate TurnOk(turn: Turn, mode: ConflictMode, id: string, key: string, conflicts: map<string, Conflict>) {
    match turn.question
    case None => !(turn.existed && mode == Ask) && (turn.wrote <==> !turn.existed || mode == OverrideExisting)
    case Some(c) =>
      && turn.existed && mode == Ask && AskedAs(conflicts, c, id, key)
      && DecidedAs(conflicts, c, if turn.wrote then Override else Skip)
  }

  function WrittenBy(keys: seq<string>, turns: seq<Turn>): seq<string>
    requires |turns| <= |keys|
  {
    if turns == [] then []
    else
      var n := |turns| - 1;
      WrittenBy(keys, turns[..n]) + if turns[n].wrote then [keys[n]] else []
  }

  ghost predicate AwaitOk(h: Handling, id: string, conflicts: map<string, Conflict>) {
    match h.at
    case OnExistence => true
    case OnDecision(c) => More(h) && h.mode == Ask && AskedAs(conflicts, c, id, h.keys[|h.turns|])
    case OnWrite(existed, question) =>
      More(h) && TurnOk(Turn(existed, question, true), h.mode, id, h.keys[|h.turns|], conflicts)
  }

  ghost predicate HandlingOk(h: Handling, id: string, conflicts: map<string, Conflict>) {
    && |h.turns| <= |h.keys| && h.written == WrittenBy(h.keys, h.turns)
    && (forall k :: 0 <= k < |h.turns| ==> TurnOk(h.turns[k], h.mode, id, h.keys[k], conflicts))
    && AwaitOk(h, id, conflicts)
  }

  /** A job in the phase has a handler, which waits for a decision exactly when the job's worker does. */
  ghost predicate Coupled(w: Runs, id: string) {
    id in w.sys.jobs && InProjects(w.sys.jobs[id]) ==>
      && id in w.handling
      && w.sys.jobs[id].place.waiting
         == if w.handling[id].at.OnDecision? then Some(w.handling[id].at.conflictId) else None
  }

  ghost predicate RunsOk(w: Runs) {
    && Inv(w.sys)
    && (forall id :: id in w.handling ==> HandlingOk(w.handling[id], id, w.sys.conflicts))
    && (forall id :: id in w.sys.jobs ==> Coupled(w, id))
  }

  // Preservation

  /** Conflicts stay, with what they are about and with their decision. */
  ghost predicate Remembers(before: map<string, Conflict>, after: map<string, Conflict>) {
    forall c :: c in before ==>
      && c in after && after[c].jobId == before[c].jobId && after[c].objectKey == before[c].objectKey
      && (before[c].decision.Some? ==> after[c].decision == before[c].decision)
  }

  lemma StepRemembers(s: System, e: Step)
    ensures Remembers(s.conflicts, Apply(s, e).conflicts)
  {
    ConflictsChangeBy(s, e);
  }

  lemma HandlingStays(h: Handling, id: string, before: map<string, Conflict>, after: map<string, Conflict>)
    requires HandlingOk(h, id, before) && Remembers(before, after)
    ensures HandlingOk(h, id, after)
  {
  }

  lemma TurnAppended(h: Handling, turn: Turn, id: string, conflicts: map<string, Conflict>, t: Handling)
    requires HandlingOk(h, id, conflicts) && More(h) && TurnOk(turn, h.mode, id, h.keys[|h.turns|], conflicts)
    requires t == WithTurn(h, turn).(written := if turn.wrote then h.written + [h.keys[|h.turns|]] else h.written)
    ensures HandlingOk(t, id, conflicts)
  {
    assert t.turns[..|h.turns|] == h.turns;
  }

  /**
   A step other than a question or a poll leaves the worker where it is, or begins a phase anew, or ends the phases.
   */
  lemma PlaceAfter(j: Job, e: Step, t: Job)
    requires Ready(j, e) && !e.Asked? && !e.Polled? && t == Moved(j, e)
    ensures || t.place == j.place
            || (t.place.InPhase? ==> t.place.waiting == None && (j.place.InPhase? ==> t.place.i != j.place.i))
    ensures t.config == j.config
  {
  }

  lemma OwnStepCouples(w: Runs, e: Step, id: string, t: Runs)
    requires id in w.sys.jobs && Coupled(w, id) && Enabled(w.sys, e) && e.id == id
    requires !e.CreateJob? && !e.DecisionPosted? && !e.Asked? && !e.Polled? && t == Take(w, e)
    ensures Coupled(t, id)
  {
    StepTouches(w.sys, e, id, t.sys);
    PlaceAfter(w.sys.jobs[id], e, t.sys.jobs[id]);
  }

  lemma OtherStepCouples(w: Runs, e: Step, id: string, t: Runs)
    requires id in t.sys.jobs && t == Take(w, e) && (id in w.sys.jobs ==> Coupled(w, id))
    requires !(Enabled(w.sys, e) && !e.CreateJob? && !e.DecisionPosted? && e.id == id)
    ensures Coupled(t, id)
  {
    if id !in w.sys.jobs {
      OnlyCreationAdds(w.sys, e, id, t.sys);
    } else if e.DecisionPosted? {
      DecisionOnlyRestarts(w.sys, e, id, t.sys);
    } else {
      StepTouches(w.sys, e, id, t.sys);
    }
  }

  lemma TakeKeepsHandling(w: Runs, e: Step, id: string, t: Runs)
    requires RunsOk(w) && id in t.handling && t == Take(w, e)
    ensures HandlingOk(t.handling[id], id, t.sys.conflicts)
  {
    StepRemembers(w.sys, e);
    if Enters(w.sys, t.sys, e.id) && id == e.id {
      assert t.handling[id] == NewHandling(t.sys.jobs[id]);
    } else {
      HandlingStays(w.handling[id], id, w.sys.conflicts, t.sys.conflicts);
    }
  }

  /** Any step of the system but a question or a poll of a job in the phase. */
  lemma TakeKeeps(w: Runs, e: Step, t: Runs)
    requires RunsOk(w) && t == Take(w, e)
    requires Enabled(w.sys, e) && (e.Asked? || e.Polled?) ==> !InProjects(w.sys.jobs[e.id])
    ensures RunsOk(t)
  {
    StepKeepsInv(w.sys, e);
    forall id | id in t.handling
      ensures HandlingOk(t.handling[id], id, t.sys.conflicts)
    {
      TakeKeepsHandling(w, e, id, t);
    }
    forall id | id in t.sys.jobs
      ensures Coupled(t, id)
    {
      assert id in w.sys.jobs ==> Coupled(w, id);
      if Enabled(w.sys, e) && !e.CreateJob? && !e.DecisionPosted? && e.id == id {
        if e.Asked? || e.Polled? {
          QuestionElsewhere(w, e, id, t);
        } else {
          OwnStepCouples(w, e, id, t);
        }
      } else {
        OtherStepCouples(w, e, id, t);
      }
    }
  }

  lemma QuestionElsewhere(w: Runs, e: Step, id: string, t: Runs)
    requires id in w.sys.jobs && Enabled(w.sys, e) && e.id == id && (e.Asked? || e.Polled?) && t == Take(w, e)
    requires !InProjects(w.sys.jobs[id])
    ensures Coupled(t, id)
  {
    StepTouches(w.sys, e, id, t.sys);
  }

  /** The worker of `e.id` waits exactly as its handler, now `h`, does. */
  lemma QuestionCouples(w: Runs, e: Step, h: Handling, u: Runs, t: Runs, id: string)
    requires Enabled(w.sys, e) && (e.Asked? || e.Polled?) && InProjects(w.sys.jobs[e.id])
    requires u == Take(w, e) && t == Set(u, e.id, h) && id in t.sys.jobs && (id in w.sys.jobs ==> Coupled(w, id))
    requires h.at.OnDecision? <==> e.Asked?
    requires e.Asked? ==> h.at.conflictId == e.conflictId
    ensures Coupled(t, id)
  {
    if id == e.id {
      StepTouches(w.sys, e, id, u.sys);
    } else {
      OtherStepCouples(w, e, id, u);
    }
  }

  /** A question or a poll, together with what the handler makes of it. */
  lemma QuestionKeeps(w: Runs, e: Step, h: Handling, t: Runs)
    requires RunsOk(w) && Enabled(w.sys, e) && (e.Asked? || e.Polled?) && InProjects(w.sys.jobs[e.id])
    requires t == Set(Take(w, e), e.id, h) && HandlingOk(h, e.id, t.sys.conflicts)
    requires h.at.OnDecision? <==> e.Asked?
    requires e.Asked? ==> h.at.conflictId == e.conflictId
    ensures RunsOk(t)
  {
    StepKeepsInv(w.sys, e);
    var u := Take(w, e);
    forall id | id in t.handling
      ensures HandlingOk(t.handling[id], id, t.sys.conflicts)
    {
      if id != e.id {
        TakeKeepsHandling(w, e, id, u);
      }
    }
    forall id | id in t.sys.jobs
      ensures Coupled(t, id)
    {
      QuestionCouples(w, e, h, u, t, id);
    }
  }

  /** A turn of the handler that the rest of the system does not notice. */
  lemma SilentKeeps(w: Runs, id: string, h: Handling, t: Runs)
    requires RunsOk(w) && Suspended(w, id) && t == Set(w, id, h) && HandlingOk(h, id, w.sys.conflicts)
    requires !w.handling[id].at.OnDecision? && !h.at.OnDecision?
    ensures RunsOk(t)
  {
    forall k | k in t.sys.jobs
      ensures Coupled(t, k)
    {
      assert Coupled(w, k);
    }
  }

  lemma AskKeeps(w: Runs, id: string, c: string, key: string, t: Runs)
    requires RunsOk(w) && Suspended(w, id) && w.handling[id].at.OnExistence? && More(w.handling[id])
    requires w.handling[id].mode == Ask && key == w.handling[id].keys[|w.handling[id].turns|] && c !in w.sys.conflicts
    requires t == Set(Take(w, Asked(id, c, key)), id, w.handling[id].(at := OnDecision(c)))
    ensures RunsOk(t)
  {
    assert Coupled(w, id) && HandlingOk(w.handling[id], id, w.sys.conflicts);
    var e := Asked(id, c, key);
    assert Enabled(w.sys, e);
    StepRemembers(w.sys, e);
    HandlingStays(w.handling[id], id, w.sys.conflicts, t.sys.conflicts);
    QuestionKeeps(w, e, w.handling[id].(at := OnDecision(c)), t);
  }

  lemma AnswerKeeps(w: Runs, id: string, existence: Option<bool>, c: string, subscriberThrows: bool, now: int,
                    throwing: seq<bool>, t: Runs)
    requires RunsOk(w) && Suspended(w, id) && w.handling[id].at.OnExistence? && More(w.handling[id])
    requires t == OnAnswer(w, id, existence, c, subscriberThrows, now, throwing)
    ensures RunsOk(t)
  {
    var h := w.handling[id];
    assert HandlingOk(h, id, w.sys.conflicts);
    if existence == None || (existence.value && h.mode == Ask && c in w.sys.conflicts) {
      TakeKeeps(w, HandlerEnded(id, Failure(h), now, throwing), t);
    } else if !existence.value {
      SilentKeeps(w, id, h.(at := OnWrite(false, None)), t);
    } else if h.mode == OverrideExisting {
      SilentKeeps(w, id, h.(at := OnWrite(true, None)), t);
    } else if h.mode == SkipExisting {
      TurnAppended(h, Turn(true, None, false), id, w.sys.conflicts, WithTurn(h, Turn(true, None, false)));
      SilentKeeps(w, id, WithTurn(h, Turn(true, None, false)), t);
    } else if subscriberThrows {
      TakeKeeps(w, AskedAndThrew(id, c, h.keys[|h.turns|], |h.turns|, |h.keys|, now, throwing), t);
    } else {
      AskKeeps(w, id, c, h.keys[|h.turns|], t);
    }
  }

  lemma WriteKeeps(w: Runs, id: string, succeeds: bool, now: int, throwing: seq<bool>, t: Runs)
    requires RunsOk(w) && Suspended(w, id) && w.handling[id].at.OnWrite? && More(w.handling[id])
    requires t == OnWritten(w, id, succeeds, now, throwing)
    ensures RunsOk(t)
  {
    var h := w.handling[id];
    assert HandlingOk(h, id, w.sys.conflicts);
    if succeeds {
      TurnAppended(h, Turn(h.at.existed, h.at.question, true), id, w.sys.conflicts, t.handling[id]);
      SilentKeeps(w, id, t.handling[id], t);
    } else {
      TakeKeeps(w, HandlerEnded(id, Failure(h), now, throwing), t);
    }
  }

  lemma PollKeeps(w: Runs, id: string, t: Runs)
    requires RunsOk(w) && Suspended(w, id) && w.handling[id].at.OnDecision? && t == OnPoll(w, id)
    ensures RunsOk(t)
  {
    var h := w.handling[id];
    var c := h.at.conflictId;
    assert HandlingOk(h, id, w.sys.conflicts) && Coupled(w, id);
    if t != w {
      var e := Polled(id);
      assert Enabled(w.sys, e);
      assert Apply(w.sys, e).conflicts == w.sys.conflicts;
      if w.sys.conflicts[c].decision.value == Override {
        QuestionKeeps(w, e, h.(at := OnWrite(true, Some(c))), t);
      } else {
        TurnAppended(h, Turn(true, Some(c), false), id, w.sys.conflicts, WithTurn(h, Turn(true, Some(c), false)));
        QuestionKeeps(w, e, WithTurn(h, Turn(true, Some(c), false)), t);
      }
    }
  }

  lemma MoveKeeps(w: Runs, m: Move)
    requires RunsOk(w)
    ensures RunsOk(Do(w, m))
  {
    if Possible(w, m) {
      match m
      case Elsewhere(e) =>
        if e.id in w.sys.jobs {
          assert Coupled(w, e.id);
        }
        TakeKeeps(w, e, Do(w, m));
      case ExistenceAnswered(id, existence, c, subscriberThrows, now, throwing) =>
        AnswerKeeps(w, id, existence, c, subscriberThrows, now, throwing, Do(w, m));
      case WriteAnswered(id, succeeds, now, throwing) => WriteKeeps(w, id, succeeds, now, throwing, Do(w, m));
      case DecisionPolled(id) => PollKeeps(w, id, Do(w, m));
      case HandlerReturned(id, now, throwing) =>
        TakeKeeps(w, HandlerEnded(id, Success(w.handling[id]), now, throwing), Do(w, m));
    }
  }

  lemma {:induction false} MovesKeep(moves: seq<Move>)
    ensures RunsOk(After(moves))
  {
    if moves != [] {
      MovesKeep(moves[..|moves| - 1]);
      MoveKeeps(After(moves[..|moves| - 1]), moves[|moves| - 1]);
    }
  }

  // The handlers and their jobs

  /** What a job was created for never changes. */
  lemma JobKeepsItsOrder(s: System, e: Step, id: string, t: System)
    requires id in s.jobs && t == Apply(s, e)
    ensures id in t.jobs && SameOrder(s.jobs[id], t.jobs[id])
  {
    if e.DecisionPosted? {
      DecisionOnlyRestarts(s, e, id, t);
    } else {
      StepTouches(s, e, id, t);
      if Enabled(s, e) && !e.CreateJob? && e.id == id {
        MovedKeepsOrder(s.jobs[id], e, t.jobs[id]);
      }
    }
  }

  predicate SameOrder(before: Job, after: Job) {
    && after.row.scope == before.row.scope && after.row.conflictMode == before.row.conflictMode
    && after.row.destination == before.row.destination && after.config == before.config
  }

  /** The parts of a row that say what is to be restored. */
  predicate SameRequest(before: RestoreJob, after: RestoreJob) {
    && after.scope == before.scope && after.conflictMode == before.conflictMode
    && after.destination == before.destination
  }

  lemma BeginKeepsRequest(row: RestoreJob, events: seq<Event>, handlers: seq<Phase>, i: nat, totalErrors: nat,
                          now: int, throws: bool)
    ensures SameRequest(row, BeginPhase(row, events, handlers, i, totalErrors, now, throws).row)
  {
  }

  lemma EndKeepsRequest(row: RestoreJob, events: seq<Event>, handlers: seq<Phase>, i: nat, totalErrors: nat,
                        outcome: Outcome, now: int, throwing: seq<bool>)
    requires i < |handlers|
    ensures SameRequest(row, EndPhase(row, events, handlers, i, totalErrors, outcome, now, throwing).row)
  {
  }

  lemma EngineStepKeepsOrder(j: Job, e: Step, t: Job)
    requires Ready(j, e) && t == Moved(j, e) && (e.StartWorker? || e.TrashAnswered?)
    ensures SameOrder(j, t)
  {
    var row := if e.StartWorker? then Armed(j, e.now).row else j.row;
    BeginKeepsRequest(row.(phaseProgress := InitialProgress(j.config.handlers)), j.events, j.config.handlers, 0, 0,
                      e.now, Throws(e.throwing, 0));
  }

  lemma HandlerStepKeepsOrder(j: Job, e: Step, t: Job)
    requires Ready(j, e) && t == Moved(j, e) && (e.AskedAndThrew? || e.HandlerEnded?)
    ensures SameOrder(j, t)
  {
    var asked := if e.HandlerEnded? then j else AskOperator(j, e.conflictId, e.key);
    var outcome := if e.HandlerEnded? then e.outcome else QuestionThrew(e.processed, e.total);
    EndKeepsRequest(asked.row, asked.events, j.config.handlers, j.place.i, j.place.totalErrors, outcome, e.now,
                    e.throwing);
  }

  lemma MovedKeepsOrder(j: Job, e: Step, t: Job)
    requires Ready(j, e) && t == Moved(j, e)
    ensures SameOrder(j, t)
  {
    if e.StartWorker? || e.TrashAnswered? {
      EngineStepKeepsOrder(j, e, t);
    } else if e.AskedAndThrew? || e.HandlerEnded? {
      HandlerStepKeepsOrder(j, e, t);
    }
  }

  /** The projects a scope names: none for issues, those listed, or the one that stands for all. */
  predicate Names(scope: Scope, keys: seq<string>) {
    match scope
    case Issues(_) => keys == []
    case Projects(projectKeys) => keys == projectKeys
    case All => keys == ["MOCK"]
  }

  ghost predicate Serves(w: Runs, id: string) {
    id in w.handling ==>
      && id in w.sys.jobs
      && Names(w.sys.jobs[id].row.scope, w.handling[id].keys)
      && w.handling[id].mode == w.sys.jobs[id].row.conflictMode
  }

  lemma TakeServes(w: Runs, e: Step, id: string, t: Runs)
    requires Serves(w, id) && t == Take(w, e)
    ensures Serves(t, id)
  {
    if id in w.sys.jobs {
      JobKeepsItsOrder(w.sys, e, id, t.sys);
    }
  }

  lemma SetServes(w: Runs, k: string, h: Handling, id: string)
    requires Serves(w, id) && k in w.handling && h.keys == w.handling[k].keys && h.mode == w.handling[k].mode
    ensures Serves(Set(w, k, h), id)
  {
  }

  lemma MoveServes(w: Runs, m: Move, id: string)
    requires Serves(w, id)
    ensures Serves(Do(w, m), id)
  {
    if Possible(w, m) {
      match m
      case Elsewhere(e) => TakeServes(w, e, id, Do(w, m));
      case ExistenceAnswered(k, existence, c, subscriberThrows, now, throwing) =>
        AnswerServes(w, k, existence, c, subscriberThrows, now, throwing, id, Do(w, m));
      case WriteAnswered(k, succeeds, now, throwing) =>
        if succeeds {
          SetServes(w, k, Do(w, m).handling[k], id);
        } else {
          TakeServes(w, HandlerEnded(k, Failure(w.handling[k]), now, throwing), id, Do(w, m));
        }
      case DecisionPolled(k) => PollServes(w, k, id, Do(w, m));
      case HandlerReturned(k, now, throwing) =>
        TakeServes(w, HandlerEnded(k, Success(w.handling[k]), now, throwing), id, Do(w, m));
    }
  }

  lemma AnswerServes(w: Runs, k: string, existence: Option<bool>, c: string, subscriberThrows: bool, now: int,
                     throwing: seq<bool>, id: string, t: Runs)
    requires Serves(w, id) && Suspended(w, k) && w.handling[k].at.OnExistence? && More(w.handling[k])
    requires t == OnAnswer(w, k, existence, c, subscriberThrows, now, throwing)
    ensures Serves(t, id)
  {
    var h := w.handling[k];
    var key := h.keys[|h.turns|];
    if existence == None || (existence.value && h.mode == Ask && c in w.sys.conflicts) {
      TakeServes(w, HandlerEnded(k, Failure(h), now, throwing), id, t);
    } else if !existence.value || h.mode != Ask {
      SetServes(w, k, t.handling[k], id);
    } else if subscriberThrows {
      TakeServes(w, AskedAndThrew(k, c, key, |h.turns|, |h.keys|, now, throwing), id, t);
    } else {
      AskServes(w, k, c, key, id, t);
    }
  }

  lemma AskServes(w: Runs, k: string, c: string, key: string, id: string, t: Runs)
    requires Serves(w, id) && Suspended(w, k)
    requires t == Set(Take(w, Asked(k, c, key)), k, w.handling[k].(at := OnDecision(c)))
    ensures Serves(t, id)
  {
    var e := Asked(k, c, key);
    TakeServes(w, e, id, Take(w, e));
    JobKeepsItsOrder(w.sys, e, k, Take(w, e).sys);
  }

  lemma PollServes(w: Runs, k: string, id: string, t: Runs)
    requires Serves(w, id) && Suspended(w, k) && w.handling[k].at.OnDecision? && t == OnPoll(w, k)
    ensures Serves(t, id)
  {
    if t != w {
      var e := Polled(k);
      TakeServes(w, e, id, Take(w, e));
      JobKeepsItsOrder(w.sys, e, k, Take(w, e).sys);
    }
  }

  /** Over all interleavings a handler works on the projects that the scope of its job names, in the mode of its job. */
  lemma {:induction false} HandlersServeTheirJobs(moves: seq<Move>, id: string)
    ensures Serves(After(moves), id)
  {
    if moves != [] {
      HandlersServeTheirJobs(moves[..|moves| - 1], id);
      MoveServes(After(moves[..|moves| - 1]), moves[|moves| - 1], id);
    }
  }

  // What follows

  /**
   Over all interleavings: a project that was put to the operator is written exactly when the decision stored about its
   conflict is `override`; any other is written exactly when it did not exist or the mode is `override`.
   */
  lemma WrittenExactlyOnOverride(moves: seq<Move>, id: string, k: nat)
    requires id in After(moves).handling && k < |After(moves).handling[id].turns|
    ensures var w := After(moves); var h := w.handling[id]; var turn := h.turns[k];
            && k < |h.keys|
            && (turn.question.Some? ==>
                  && turn.existed && h.mode == Ask && AskedAs(w.sys.conflicts, turn.question.value, id, h.keys[k])
                  && w.sys.conflicts[turn.question.value].decision.Some?
                  && (turn.wrote <==> w.sys.conflicts[turn.question.value].decision == Some(Override)))
            && (turn.question == None ==>
                  !(turn.existed && h.mode == Ask) && (turn.wrote <==> !turn.existed || h.mode == OverrideExisting))
  {
    MovesKeep(moves);
    var w := After(moves);
    assert HandlingOk(w.handling[id], id, w.sys.conflicts);
    assert TurnOk(w.handling[id].turns[k], w.handling[id].mode, id, w.handling[id].keys[k], w.sys.conflicts);
  }

  /** And these projects, in order, are all that is written. */
  lemma NothingElseIsWritten(moves: seq<Move>, id: string)
    requires id in After(moves).handling
    ensures var h := After(moves).handling[id];
            |h.turns| <= |h.keys| && h.written == WrittenBy(h.keys, h.turns)
  {
    MovesKeep(moves);
    assert HandlingOk(After(moves).handling[id], id, After(moves).sys.conflicts);
  }

  /** What the handler returns: how many projects it is done with, of how many, and whether it failed at one. */
  lemma HandlerReturns(h: Handling)
    ensures Success(h) == Returned(PhaseResult(PhaseCompleted, |h.turns|, |h.keys|, 0, None, []))
    ensures Failure(h) == Returned(PhaseResult(PhaseFailed, |h.turns|, |h.keys|, 1, Some(ProjectWriteFailed), []))
  {
  }

  /** The handler of this job has returned, as failed or completed, with what it is done with, of how many. */
  predicate Returns(w: Runs, t: Runs, id: string, status: EndStatus, now: int, throwing: seq<bool>)
    requires id in w.handling
  {
    var h := w.handling[id];
    var failed := status == PhaseFailed;
    var result := PhaseResult(status, |h.turns|, |h.keys|, if failed then 1 else 0,
                              if failed then Some(ProjectWriteFailed) else None, []);
    t.sys == Apply(w.sys, HandlerEnded(id, Returned(result), now, throwing))
  }

  predicate IsAsked(h: Handling, m: Move)
    requires m.ExistenceAnswered?
  {
    h.mode == Ask && m.existence == Some(true)
  }

  /**
   A handler fails at once if it cannot learn whether a project exists, if the id of a conflict is taken, if a
   subscriber throws at a question or if a write fails; it completes once it is done with all its projects.
   */
  lemma HandlerEndsSo(w: Runs, m: Move, t: Runs)
    requires Possible(w, m) && t == Do(w, m) && !m.Elsewhere?
    ensures m.ExistenceAnswered? && m.existence == None ==> Returns(w, t, m.id, PhaseFailed, m.now, m.throwing)
    ensures m.ExistenceAnswered? && IsAsked(w.handling[m.id], m) ==>
              var h := w.handling[m.id];
              var key := h.keys[|h.turns|];
              if m.conflictId in w.sys.conflicts then Returns(w, t, m.id, PhaseFailed, m.now, m.throwing)
              else if m.subscriberThrows then
                t.sys == Apply(w.sys, AskedAndThrew(m.id, m.conflictId, key, |h.turns|, |h.keys|, m.now, m.throwing))
              else t.sys == Apply(w.sys, Asked(m.id, m.conflictId, key))
    ensures m.WriteAnswered? && !m.succeeds ==> Returns(w, t, m.id, PhaseFailed, m.now, m.throwing)
    ensures m.HandlerReturned? ==> Returns(w, t, m.id, PhaseCompleted, m.now, m.throwing)
  {
  }

  /** Any other answer leaves all jobs alone; a write that succeeds is a project written. */
  lemma HandlerGoesOn(w: Runs, m: Move, t: Runs)
    requires Possible(w, m) && t == Do(w, m)
    ensures m.ExistenceAnswered? && m.existence.Some? && !IsAsked(w.handling[m.id], m) ==> t.sys == w.sys
    ensures m.WriteAnswered? && m.succeeds ==>
              var h := w.handling[m.id];
              && t.sys == w.sys && m.id in t.handling && t.handling[m.id].keys == h.keys
              && t.handling[m.id].written == h.written + [h.keys[|h.turns|]]
  {
  }

  /** Nothing but an accepted request stores a decision, and then the one it names. */
  lemma OnlyRequestsDecide(s: System, e: Step, c: string, t: System)
    requires c in s.conflicts && s.conflicts[c].decision == None && t == Apply(s, e)
    requires c in t.conflicts && t.conflicts[c].decision.Some?
    ensures e.DecisionPosted? && e.about == Some(c) && t.conflicts[c].decision == e.decision
    ensures e.id in s.jobs && AnswerTo(Some(s.jobs[e.id].row), s.conflicts, e.id, e.about, e.decision) == Accepted
  {
    ConflictsChangeBy(s, e);
  }

  /** The system under the handlers is the life cycle: what holds of its runs holds here. */
  lemma {:induction false} MovesAreSteps(moves: seq<Move>) returns (steps: seq<Step>)
    ensures Run(EMPTY, steps) == After(moves).sys
  {
    if moves == [] {
      steps := [];
    } else {
      var w := After(moves[..|moves| - 1]);
      steps := MovesAreSteps(moves[..|moves| - 1]);
      var e := StepOf(w, moves[|moves| - 1]);
      if e.Some? {
        assert (steps + [e.value])[..|steps|] == steps;
        steps := steps + [e.value];
      }
    }
  }

  lemma StepOf(w: Runs, m: Move) returns (e: Option<Step>)
    ensures Do(w, m).sys == if e == None then w.sys else Apply(w.sys, e.value)
  {
    e := None;
    if Possible(w, m) {
      match m
      case Elsewhere(step) => e := Some(step);
      case ExistenceAnswered(id, existence, c, subscriberThrows, now, throwing) =>
        var h := w.handling[id];
        if existence == None || (existence.value && h.mode == Ask && c in w.sys.conflicts) {
          e := Some(HandlerEnded(id, Failure(h), now, throwing));
        } else if existence.value && h.mode == Ask {
          e := Some(if subscriberThrows
                    then AskedAndThrew(id, c, h.keys[|h.turns|], |h.turns|, |h.keys|, now, throwing)
                    else Asked(id, c, h.keys[|h.turns|]));
        }
      case WriteAnswered(id, succeeds, now, throwing) =>
        if !succeeds {
          e := Some(HandlerEnded(id, Failure(w.handling[id]), now, throwing));
        }
      case DecisionPolled(id) =>
        var c := w.handling[id].at.conflictId;
        if c in w.sys.conflicts && w.sys.conflicts[c].decision.Some? {
          e := Some(Polled(id));
        }
      case HandlerReturned(id, now, throwing) =>
        e := Some(HandlerEnded(id, Success(w.handling[id]), now, throwing));
    }
  }
}
