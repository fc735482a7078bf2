/**
 The project phase (src/restore/RestorePhaseHandlers.ts). What Jira answers, what the operator decides and whether a
 subscriber of the bus throws are inputs, one set per project.
 */
module ProjectPhase {
  import opened Common
  import opened RestoreStore
  import opened RestoreEngine

  /**
   For one project: whether it exists (none: the question fails), the id its conflict gets, whether a subscriber throws
   at the question put to the operator, the decision, and whether the write succeeds.
   */
  datatype Answers = Answers(
    existence: Option<bool>,
    conflictId: string,
    subscriberThrows: bool,
    decision: Decision,
    decidedAt: int,
    writeSucceeds: bool)

  /** What the phase changes. */
  datatype World = World(
    written: seq<string>,
    conflicts: map<string, Conflict>,
    status: JobStatus,
    events: seq<Event>)

  function ProjectsFromScope(scope: Scope): seq<string> {
    match scope
    case Issues(_) => []
    case Projects(projectKeys) => projectKeys
    case All => ["MOCK"]
  }

  datatype Handled = Handled(world: World, ok: bool)

  function Write(w: World, key: string, a: Answers): Handled {
    if a.writeSucceeds then Handled(w.(written := w.written + [key]), true) else Handled(w, false)
  }

  /** The conflict is stored and put to the operator. */
  function AskFor(w: World, jobId: string, key: string, a: Answers): World {
    w.(conflicts := w.conflicts[a.conflictId := Conflict(jobId, key, None, None)],
       status := AwaitingDecision,
       events := w.events + [ConflictDecisionRequired(a.conflictId, key)])
  }

  /** The operator's decision is in the store and the job runs again. */
  function Decided(w: World, jobId: string, key: string, a: Answers): World {
    AskFor(w, jobId, key, a).(
      conflicts := w.conflicts[a.conflictId := Conflict(jobId, key, Some(a.decision), Some(a.decidedAt))],
      status := Running)
  }

  /** One turn of the loop; `ok` is false when the body throws. */
  function Handle(w: World, jobId: string, mode: ConflictMode, key: string, a: Answers): Handled {
    if a.existence == None then Handled(w, false)
    else if !a.existence.value then Write(w, key, a)
    else
      match mode
      case SkipExisting => Handled(w, true)
      case OverrideExisting => Write(w, key, a)
      case Ask =>
        if a.conflictId in w.conflicts then Handled(w, false)
        else if a.subscriberThrows then Handled(AskFor(w, jobId, key, a), false)
        else if a.decision == Override then Write(Decided(w, jobId, key, a), key, a)
        else Handled(Decided(w, jobId, key, a), true)
  }

  datatype Phased = Phased(world: World, result: PhaseResult)

  /** The loop: it is left at the first turn that throws. */
  function RunFrom(w: World, jobId: string, mode: ConflictMode, keys: seq<string>, answers: seq<Answers>,
                   processed: nat, total: nat): Phased
    requires |answers| == |keys|
    decreases |keys|
  {
    if keys == [] then Phased(w, PhaseResult(PhaseCompleted, processed, total, 0, None, []))
    else
      var h := Handle(w, jobId, mode, keys[0], answers[0]);
      if h.ok then RunFrom(h.world, jobId, mode, keys[1..], answers[1..], processed + 1, total)
      else Phased(h.world, PhaseResult(PhaseFailed, processed, total, 1, Some(ProjectWriteFailed), []))
  }

  /** The answers about the first `n` projects. */
  function FirstAnswers(answers: nat -> Answers, n: nat): (given: seq<Answers>)
    ensures |given| == n && forall i :: 0 <= i < n ==> given[i] == answers(i)
  {
    seq(n, i requires 0 <= i < n => answers(i))
  }

  /** The phase for a scope, given what is answered about its first, second and further project. */
  function RunPhase(w: World, jobId: string, mode: ConflictMode, scope: Scope, answers: nat -> Answers): Phased {
    var keys := ProjectsFromScope(scope);
    RunFrom(w, jobId, mode, keys, FirstAnswers(answers, |keys|), 0, |keys|)
  }

  /** The part of the write client the phase uses, seen as the list of projects it wrote. */
  class JiraWriteClient {
    var written: seq<string>

    constructor ()
      ensures written == []
    {
      written := [];
    }

    method WriteProject(key: string, succeeds: bool) returns (ok: bool)
      modifies this
      ensures ok == succeeds
      ensures written == if ok then old(written) + [key] else old(written)
    {
      if succeeds {
        written := written + [key];
      }
      ok := succeeds;
    }
  }

  class ProjectPhaseHandler {
    const jobId: string
    const conflictMode: ConflictMode
    const client: JiraWriteClient
    const store: RestoreJobStore
    const bus: RestoreEventBus

    constructor (jobId: string, conflictMode: ConflictMode, client: JiraWriteClient, store: RestoreJobStore,
                 bus: RestoreEventBus)
      ensures this.jobId == jobId && this.conflictMode == conflictMode
      ensures this.client == client && this.store == store && this.bus == bus
    {
      this.jobId := jobId;
      this.conflictMode := conflictMode;
      this.client := client;
      this.store := store;
      this.bus := bus;
    }

    /** Of the job row only the status is touched, and no other row. */
    ghost predicate Stands(base: Jobs, w: World)
      reads client, store, bus
    {
      && jobId in base && store.jobs == base[jobId := base[jobId].(status := w.status)]
      && client.written == w.written && store.conflicts == w.conflicts && bus.Channel(jobId) == w.events
    }

    method DoWrite(key: string, a: Answers, ghost base: Jobs, ghost w: World) returns (ok: bool)
      requires Stands(base, w)
      modifies client
      ensures ok == Write(w, key, a).ok && Stands(base, Write(w, key, a).world)
    {
      ok := client.WriteProject(key, a.writeSucceeds);
    }

    /** Polls until the operator has decided, which the decisions endpoint stores together with the status. */
    method WaitForDecision(key: string, a: Answers, ghost base: Jobs, ghost w: World) returns (decision: Decision)
      requires Stands(base, AskFor(w, jobId, key, a))
      modifies store`conflicts, store`jobs
      ensures decision == a.decision && Stands(base, Decided(w, jobId, key, a))
    {
      store.ResolveConflict(a.conflictId, a.decision, a.decidedAt);
      store.SetStatus(jobId, Running);
      var conflict := store.GetConflict(a.conflictId);
      decision := conflict.value.decision.value;
    }

    /** Stores the conflict and announces the question; a taken id, or a subscriber, makes it throw. */
    method PutQuestion(key: string, a: Answers, ghost base: Jobs, ghost w: World) returns (threw: bool)
      requires Stands(base, w)
      modifies store`conflicts, store`jobs, bus
      ensures threw == (a.conflictId in w.conflicts || a.subscriberThrows)
      ensures Stands(base, if a.conflictId in w.conflicts then w else AskFor(w, jobId, key, a))
    {
      var inserted := store.InsertConflict(a.conflictId, jobId, key);
      if !inserted {
        return true;
      }
      store.SetStatus(jobId, AwaitingDecision);
      bus.Publish(jobId, ConflictDecisionRequired(a.conflictId, key));
      threw := a.subscriberThrows;
    }

    /** From the wait for the decision on. */
    method FollowDecision(key: string, a: Answers, ghost base: Jobs, ghost w: World) returns (ok: bool)
      requires Stands(base, AskFor(w, jobId, key, a))
      modifies client, store`conflicts, store`jobs
      ensures var decided := Decided(w, jobId, key, a);
              var h := if a.decision == Override then Write(decided, key, a) else Handled(decided, true);
              ok == h.ok && Stands(base, h.world)
    {
      var decision := WaitForDecision(key, a, base, w);
      store.SetStatus(jobId, Running);
      ok := true;
      if decision == Override {
        ok := DoWrite(key, a, base, Decided(w, jobId, key, a));
      }
    }

    /** An existing project in ask mode. */
    method AskOperator(key: string, a: Answers, ghost base: Jobs, ghost w: World) returns (ok: bool)
      requires Stands(base, w) && conflictMode == Ask && a.existence == Some(true)
      modifies client, store`conflicts, store`jobs, bus
      ensures var h := Handle(w, jobId, conflictMode, key, a); ok == h.ok && Stands(base, h.world)
    {
      var threw := PutQuestion(key, a, base, w);
      if threw {
        return false;
      }
      ok := FollowDecision(key, a, base, w);
    }

    /** One turn of the loop. */
    method HandleProject(key: string, a: Answers, ghost base: Jobs, ghost w: World) returns (ok: bool)
      requires Stands(base, w)
      modifies client, store`conflicts, store`jobs, bus
      ensures var h := Handle(w, jobId, conflictMode, key, a); ok == h.ok && Stands(base, h.world)
    {
      if a.existence == None {
        return false;
      }
      if a.existence.value {
        if conflictMode == SkipExisting {
          return true;
        }
        if conflictMode == OverrideExisting {
          ok := DoWrite(key, a, base, w);
          return;
        }
        if conflictMode == Ask {
          ok := AskOperator(key, a, base, w);
          return;
        }
      }
      ok := DoWrite(key, a, base, w);
    }

    method Run(scope: Scope, answers: nat -> Answers) returns (result: PhaseResult)
      requires jobId in store.jobs
      modifies client, store`conflicts, store`jobs, bus
      ensures var w :=
              World(old(client.written), old(store.conflicts), old(store.jobs[jobId].status), old(bus.Channel(jobId)));
              var p := RunPhase(w, jobId, conflictMode, scope, answers);
              result == p.result && Stands(old(store.jobs), p.world)
    {
      var projects := ProjectsFromScope(scope);
      var processed := 0;
      ghost var base := store.jobs;
      ghost var given := FirstAnswers(answers, |projects|);
      ghost var w := World(client.written, store.conflicts, store.jobs[jobId].status, bus.Channel(jobId));
      ghost var end := RunFrom(w, jobId, conflictMode, projects, given, 0, |projects|);
      for i := 0 to |projects|
        invariant processed == i && Stands(base, w)
        invariant RunFrom(w, jobId, conflictMode, projects[i..], given[i..], processed, |projects|) == end
      {
        var ok := HandleProject(projects[i], answers(i), base, w);
        assert projects[i..][1..] == projects[i + 1..] && given[i..][1..] == given[i + 1..];
        w := Handle(w, jobId, conflictMode, projects[i], answers(i)).world;
        if !ok {
          return PhaseResult(PhaseFailed, processed, |projects|, 1, Some(ProjectWriteFailed), []);
        }
        processed := processed + 1;
      }
      result := PhaseResult(PhaseCompleted, processed, |projects|, 0, None, []);
    }
  }

  // The phase as a filter

  /** The rule for one project: write it unless it exists and neither the mode nor the operator says override. */
  predicate Selected(mode: ConflictMode, a: Answers) {
    a.existence == Some(false) || mode == OverrideExisting || (mode == Ask && a.decision == Override)
  }

  function Selection(mode: ConflictMode, keys: seq<string>, answers: seq<Answers>): seq<string>
    requires |answers| == |keys|
  {
    if keys == [] then []
    else (if Selected(mode, answers[0]) then [keys[0]] else []) + Selection(mode, keys[1..], answers[1..])
  }

  /** What makes a turn throw: the question to Jira, the question to the operator, or the write. */
  predicate Fails(mode: ConflictMode, a: Answers) {
    || a.existence == None
    || (a.existence == Some(true) && mode == Ask && a.subscriberThrows)
    || (Selected(mode, a) && !a.writeSucceeds)
  }

  predicate FreshIds(answers: seq<Answers>, conflicts: map<string, Conflict>) {
    && (forall i :: 0 <= i < |answers| ==> answers[i].conflictId !in conflicts)
    && forall i, j :: 0 <= i < j < |answers| ==> answers[i].conflictId != answers[j].conflictId
  }

  lemma FreshIdsStay(answers: seq<Answers>, before: map<string, Conflict>, after: map<string, Conflict>)
    requires answers != [] && FreshIds(answers, before)
    requires forall c :: c in after ==> c in before || c == answers[0].conflictId
    ensures FreshIds(answers[1..], after)
  {
  }

  lemma TurnFollowsRule(w: World, jobId: string, mode: ConflictMode, key: string, a: Answers, h: Handled)
    requires a.conflictId !in w.conflicts && h == Handle(w, jobId, mode, key, a)
    ensures && (h.ok <==> !Fails(mode, a))
            && h.world.written == w.written + (if h.ok && Selected(mode, a) then [key] else [])
            && (forall c :: c in h.world.conflicts ==> c in w.conflicts || c == a.conflictId)
  {
  }

  /** How many projects are handled before the first turn that throws. */
  function Good(mode: ConflictMode, answers: seq<Answers>): (k: nat)
    ensures k <= |answers| && (forall i :: 0 <= i < k ==> !Fails(mode, answers[i]))
    ensures k < |answers| ==> Fails(mode, answers[k])
  {
    if answers == [] || Fails(mode, answers[0]) then 0 else 1 + Good(mode, answers[1..])
  }

  /** The selection among the projects before the first failure. */
  function SelectionBeforeFailure(mode: ConflictMode, keys: seq<string>, answers: seq<Answers>): seq<string>
    requires |answers| == |keys|
  {
    if keys == [] || Fails(mode, answers[0]) then []
    else (if Selected(mode, answers[0]) then [keys[0]] else []) + SelectionBeforeFailure(mode, keys[1..], answers[1..])
  }

  lemma {:induction false} SelectionStopsAtFailure(mode: ConflictMode, keys: seq<string>, answers: seq<Answers>)
    requires |answers| == |keys|
    ensures var k := Good(mode, answers);
            SelectionBeforeFailure(mode, keys, answers) == Selection(mode, keys[..k], answers[..k])
  {
    var k := Good(mode, answers);
    if k > 0 {
      SelectionStopsAtFailure(mode, keys[1..], answers[1..]);
      assert keys[..k][1..] == keys[1..][..k - 1] && answers[..k][1..] == answers[1..][..k - 1];
    }
  }

  lemma {:induction false} SelectionBeforeFailureIsPrefix(mode: ConflictMode, keys: seq<string>, answers: seq<Answers>)
    requires |answers| == |keys|
    ensures SelectionBeforeFailure(mode, keys, answers) <= Selection(mode, keys, answers)
    ensures Good(mode, answers) == |keys| ==>
              SelectionBeforeFailure(mode, keys, answers) == Selection(mode, keys, answers)
  {
    if keys != [] && !Fails(mode, answers[0]) {
      SelectionBeforeFailureIsPrefix(mode, keys[1..], answers[1..]);
    }
  }

  /** What a whole run says, given how many projects are handled and what they add to those written. */
  ghost predicate RunSays(w: World, p: Phased, selection: seq<string>, handled: nat, all: bool, total: nat) {
    && p.world.written == w.written + selection
    && p.result == (if all then PhaseResult(PhaseCompleted, handled, total, 0, None, [])
                    else PhaseResult(PhaseFailed, handled, total, 1, Some(ProjectWriteFailed), []))
  }

  lemma RunSaysMore(w: World, v: World, p: Phased, first: seq<string>, rest: seq<string>, handled: nat, all: bool,
                    total: nat)
    requires v.written == w.written + first && RunSays(v, p, rest, handled, all, total)
    ensures RunSays(w, p, first + rest, handled, all, total)
  {
    assert w.written + first + rest == w.written + (first + rest);
  }

  lemma {:induction false} RunFollowsRule(w: World, jobId: string, mode: ConflictMode, keys: seq<string>,
                                          answers: seq<Answers>, processed: nat, total: nat, p: Phased)
    requires |answers| == |keys| && FreshIds(answers, w.conflicts)
    requires p == RunFrom(w, jobId, mode, keys, answers, processed, total)
    ensures RunSays(w, p, SelectionBeforeFailure(mode, keys, answers), processed + Good(mode, answers),
                    Good(mode, answers) == |keys|, total)
    decreases |keys|
  {
    if keys == [] {
      assert w.written + [] == w.written;
    } else {
      var h := Handle(w, jobId, mode, keys[0], answers[0]);
      TurnFollowsRule(w, jobId, mode, keys[0], answers[0], h);
      if h.ok {
        FreshIdsStay(answers, w.conflicts, h.world.conflicts);
        RunFollowsRule(h.world, jobId, mode, keys[1..], answers[1..], processed + 1, total, p);
        RunSaysMore(w, h.world, p, if Selected(mode, answers[0]) then [keys[0]] else [],
                    SelectionBeforeFailure(mode, keys[1..], answers[1..]), processed + Good(mode, answers),
                    Good(mode, answers) == |keys|, total);
      } else {
        assert w.written + [] == w.written;
      }
    }
  }

  /**
   The phase writes, in order, exactly the projects the rule selects among those handled before the first failure;
   `processed` counts the projects handled, and the phase fails exactly when it did not handle all of them.
   */
  lemma PhaseIsFilter(w: World, jobId: string, mode: ConflictMode, keys: seq<string>, answers: seq<Answers>, total: nat)
    requires |answers| == |keys| && FreshIds(answers, w.conflicts)
    ensures var p := RunFrom(w, jobId, mode, keys, answers, 0, total); var k := Good(mode, answers);
            && p.world.written == w.written + Selection(mode, keys[..k], answers[..k])
            && p.result == (if k == |keys| then PhaseResult(PhaseCompleted, k, total, 0, None, [])
                            else PhaseResult(PhaseFailed, k, total, 1, Some(ProjectWriteFailed), []))
  {
    RunFollowsRule(w, jobId, mode, keys, answers, 0, total, RunFrom(w, jobId, mode, keys, answers, 0, total));
    SelectionStopsAtFailure(mode, keys, answers);
  }

  /** The whole phase over some projects: without failures it is the filter itself; a failure leaves a prefix of it. */
  lemma ProjectPhaseWritesSelection(w: World, jobId: string, mode: ConflictMode, keys: seq<string>,
                                    answers: seq<Answers>)
    requires |answers| == |keys| && FreshIds(answers, w.conflicts)
    ensures var p := RunFrom(w, jobId, mode, keys, answers, 0, |keys|);
            && w.written <= p.world.written <= w.written + Selection(mode, keys, answers)
            && (p.result.status == PhaseCompleted <==> forall i :: 0 <= i < |keys| ==> !Fails(mode, answers[i]))
            && (p.result.status == PhaseCompleted ==> p.world.written == w.written + Selection(mode, keys, answers))
            && p.result.processed == Good(mode, answers) && p.result.total == |keys|
  {
    var p := RunFrom(w, jobId, mode, keys, answers, 0, |keys|);
    RunFollowsRule(w, jobId, mode, keys, answers, 0, |keys|, p);
    SelectionBeforeFailureIsPrefix(mode, keys, answers);
  }

  /** A restore of issues has no projects: whatever would be answered, nothing is asked and nothing is written. */
  lemma IssuesNeedNoProjects(w: World, jobId: string, mode: ConflictMode, issueKeys: seq<string>,
                             answers: nat -> Answers)
    ensures RunPhase(w, jobId, mode, Issues(issueKeys), answers)
            == Phased(w, PhaseResult(PhaseCompleted, 0, 0, 0, None, []))
  {
  }

  /** A restore of projects writes the selection among these projects, up to the first failure. */
  lemma ProjectsAreWritten(w: World, jobId: string, mode: ConflictMode, keys: seq<string>, answers: nat -> Answers,
                           given: seq<Answers>)
    requires |given| == |keys| && (forall i :: 0 <= i < |keys| ==> given[i] == answers(i))
    requires FreshIds(given, w.conflicts)
    ensures var p := RunPhase(w, jobId, mode, Projects(keys), answers); var k := Good(mode, given);
            && p.world.written == w.written + Selection(mode, keys[..k], given[..k])
            && p.result == (if k == |keys| then PhaseResult(PhaseCompleted, k, |keys|, 0, None, [])
                            else PhaseResult(PhaseFailed, k, |keys|, 1, Some(ProjectWriteFailed), []))
  {
    assert given == FirstAnswers(answers, |keys|);
    PhaseIsFilter(w, jobId, mode, keys, given, |keys|);
  }

  /** A restore of everything is the restore of the one representative project. */
  lemma AllIsOneProject(w: World, jobId: string, mode: ConflictMode, answers: nat -> Answers)
    ensures RunPhase(w, jobId, mode, All, answers) == RunPhase(w, jobId, mode, Projects(["MOCK"]), answers)
  {
  }

  /** The question about a project, as it is announced. */
  function Announced(mode: ConflictMode, key: string, a: Answers): seq<Event> {
    if a.existence == Some(true) && mode == Ask then [ConflictDecisionRequired(a.conflictId, key)] else []
  }

  /** The questions about the first `n` projects, in order. */
  function QuestionsAbout(mode: ConflictMode, keys: seq<string>, answers: seq<Answers>, n: nat): seq<Event>
    requires n <= |keys| == |answers|
  {
    if n == 0 then []
    else QuestionsAbout(mode, keys, answers, n - 1) + Announced(mode, keys[n - 1], answers[n - 1])
  }

  lemma {:induction false} QuestionsShift(mode: ConflictMode, keys: seq<string>, answers: seq<Answers>, n: nat)
    requires 1 <= n <= |keys| == |answers|
    ensures QuestionsAbout(mode, keys, answers, n)
            == Announced(mode, keys[0], answers[0]) + QuestionsAbout(mode, keys[1..], answers[1..], n - 1)
  {
    if n > 1 {
      QuestionsShift(mode, keys, answers, n - 1);
      assert keys[1..][n - 2] == keys[n - 1] && answers[1..][n - 2] == answers[n - 1];
    } else {
      assert QuestionsAbout(mode, keys, answers, 0) == [];
    }
  }

  function Min(a: nat, b: nat): nat {
    if a <= b then a else b
  }

  /** What a turn announces, and what it makes of the job's status. */
  lemma TurnAnnounces(w: World, jobId: string, mode: ConflictMode, key: string, a: Answers, h: Handled)
    requires a.conflictId !in w.conflicts && h == Handle(w, jobId, mode, key, a)
    ensures h.world.events == w.events + Announced(mode, key, a)
    ensures h.world.status == if Announced(mode, key, a) == [] then w.status
                              else if a.subscriberThrows then AwaitingDecision
                              else Running
  {
    assert w.events + [] == w.events;
  }

  /** What is announced if the first turn announces `first` and the others `rest`. */
  lemma AnnouncedInAll(mode: ConflictMode, keys: seq<string>, answers: seq<Answers>, before: seq<Event>,
                       between: seq<Event>, after: seq<Event>, n: nat)
    requires 1 <= n <= |keys| == |answers| && between == before + Announced(mode, keys[0], answers[0])
    requires after == between + QuestionsAbout(mode, keys[1..], answers[1..], n - 1)
    ensures after == before + QuestionsAbout(mode, keys, answers, n)
  {
    QuestionsShift(mode, keys, answers, n);
    EventsAssociate(before, Announced(mode, keys[0], answers[0]), QuestionsAbout(mode, keys[1..], answers[1..], n - 1));
  }

  /** How many projects the loop gets to. */
  function Reached(mode: ConflictMode, answers: seq<Answers>): nat {
    Min(Good(mode, answers) + 1, |answers|)
  }

  lemma ReachedNext(mode: ConflictMode, answers: seq<Answers>)
    requires answers != []
    ensures Reached(mode, answers) == if Fails(mode, answers[0]) then 1 else Reached(mode, answers[1..]) + 1
  {
  }

  /** The phase announces exactly the questions about the projects it got to, in order. */
  lemma {:induction false} QuestionsAreAnnounced(w: World, jobId: string, mode: ConflictMode, keys: seq<string>,
                                                 answers: seq<Answers>, processed: nat, total: nat, p: Phased)
    requires |answers| == |keys| && FreshIds(answers, w.conflicts)
    requires p == RunFrom(w, jobId, mode, keys, answers, processed, total)
    ensures p.world.events == w.events + QuestionsAbout(mode, keys, answers, Reached(mode, answers))
    decreases |keys|
  {
    if keys == [] {
      assert w.events + [] == w.events;
      return;
    }
    var h := Handle(w, jobId, mode, keys[0], answers[0]);
    TurnFollowsRule(w, jobId, mode, keys[0], answers[0], h);
    TurnAnnounces(w, jobId, mode, keys[0], answers[0], h);
    ReachedNext(mode, answers);
    if h.ok {
      FreshIdsStay(answers, w.conflicts, h.world.conflicts);
      QuestionsAreAnnounced(h.world, jobId, mode, keys[1..], answers[1..], processed + 1, total, p);
      AnnouncedInAll(mode, keys, answers, w.events, h.world.events, p.world.events, Reached(mode, answers));
    } else {
      OnlyTheFirst(mode, keys, answers);
    }
  }

  lemma OnlyTheFirst(mode: ConflictMode, keys: seq<string>, answers: seq<Answers>)
    requires 1 <= |keys| == |answers|
    ensures QuestionsAbout(mode, keys, answers, 1) == Announced(mode, keys[0], answers[0])
  {
    assert QuestionsAbout(mode, keys, answers, 0) == [];
  }

  /** And the job runs on afterwards, unless a subscriber threw at a question, which leaves it waiting. */
  lemma {:induction false} JobRunsOn(w: World, jobId: string, mode: ConflictMode, keys: seq<string>,
                                     answers: seq<Answers>, processed: nat, total: nat, p: Phased)
    requires |answers| == |keys| && FreshIds(answers, w.conflicts) && w.status == Running
    requires p == RunFrom(w, jobId, mode, keys, answers, processed, total)
    ensures var k := Good(mode, answers);
            var left := k < |keys| && mode == Ask && answers[k].existence == Some(true) && answers[k].subscriberThrows;
            p.world.status == if left then AwaitingDecision else Running
    decreases |keys|
  {
    if keys != [] {
      var h := Handle(w, jobId, mode, keys[0], answers[0]);
      TurnFollowsRule(w, jobId, mode, keys[0], answers[0], h);
      TurnAnnounces(w, jobId, mode, keys[0], answers[0], h);
      if h.ok {
        FreshIdsStay(answers, w.conflicts, h.world.conflicts);
        JobRunsOn(h.world, jobId, mode, keys[1..], answers[1..], processed + 1, total, p);
      }
    }
  }

  lemma EventsAssociate(a: seq<Event>, b: seq<Event>, c: seq<Event>)
    ensures a + b + c == a + (b + c)
  {
  }

  /**
   What is stored about the project at place `i`: a conflict exactly if the loop got there and put it to the operator.
   */
  predicate Questioned(mode: ConflictMode, answers: seq<Answers>, i: nat)
    requires i < |answers|
  {
    i <= Good(mode, answers) && mode == Ask && answers[i].existence == Some(true)
  }

  function StoredConflict(jobId: string, key: string, a: Answers): Conflict {
    if a.subscriberThrows then Conflict(jobId, key, None, None)
    else Conflict(jobId, key, Some(a.decision), Some(a.decidedAt))
  }

  /**
   Every project put to the operator, and no other, gets a conflict, which ends up with the operator's decision, also
   when the write that follows fails; it stays undecided exactly when a subscriber threw at the question.
   */
  lemma {:induction false} EveryQuestionIsRecorded(w: World, jobId: string, mode: ConflictMode, keys: seq<string>,
                                                   answers: seq<Answers>, processed: nat, total: nat, i: nat, p: Phased)
    requires |answers| == |keys| && FreshIds(answers, w.conflicts) && i < |keys|
    requires p == RunFrom(w, jobId, mode, keys, answers, processed, total)
    ensures var id := answers[i].conflictId;
            if Questioned(mode, answers, i)
            then id in p.world.conflicts && p.world.conflicts[id] == StoredConflict(jobId, keys[i], answers[i])
            else id !in p.world.conflicts
    decreases |keys|
  {
    var h := Handle(w, jobId, mode, keys[0], answers[0]);
    TurnFollowsRule(w, jobId, mode, keys[0], answers[0], h);
    FreshIdsStay(answers, w.conflicts, h.world.conflicts);
    FirstQuestionIsRecorded(w, jobId, mode, keys[0], answers[0], h);
    if h.ok && i > 0 {
      EveryQuestionIsRecorded(h.world, jobId, mode, keys[1..], answers[1..], processed + 1, total, i - 1, p);
    } else if h.ok {
      ConflictsOfOthersStay(h.world, jobId, mode, keys[1..], answers[1..], processed + 1, total, answers[0].conflictId);
    }
  }

  lemma FirstQuestionIsRecorded(w: World, jobId: string, mode: ConflictMode, key: string, a: Answers, h: Handled)
    requires a.conflictId !in w.conflicts && h == Handle(w, jobId, mode, key, a)
    ensures if mode == Ask && a.existence == Some(true)
            then a.conflictId in h.world.conflicts && h.world.conflicts[a.conflictId] == StoredConflict(jobId, key, a)
            else a.conflictId !in h.world.conflicts
  {
  }

  lemma {:induction false} ConflictsOfOthersStay(w: World, jobId: string, mode: ConflictMode, keys: seq<string>,
                                                 answers: seq<Answers>, processed: nat, total: nat, id: string)
    requires |answers| == |keys| && forall i :: 0 <= i < |answers| ==> answers[i].conflictId != id
    ensures var p := RunFrom(w, jobId, mode, keys, answers, processed, total);
            && (id in p.world.conflicts <==> id in w.conflicts)
            && (id in w.conflicts ==> p.world.conflicts[id] == w.conflicts[id])
    decreases |keys|
  {
    if keys != [] {
      var h := Handle(w, jobId, mode, keys[0], answers[0]);
      if h.ok {
        ConflictsOfOthersStay(h.world, jobId, mode, keys[1..], answers[1..], processed + 1, total, id);
      }
    }
  }
}
