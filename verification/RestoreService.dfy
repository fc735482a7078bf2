/**
 All jobs of the backend at once (src/restore/RestoreJobRouter.ts, src/restore/RestoreWorker.ts): the router creates
 jobs and their workers over one store and one bus, and the event loop calls back into them in any order.
 */
module RestoreService {
  import opened Common
  import opened RestoreStore
  import opened RestoreEngine
  import opened RestoreLifecycle
  import opened RestoreWorker

  type Workings = map<string, Job>

  type Conflicts = map<string, Conflict>

  function ChannelIn(channels: Channels, id: string): seq<Event> {
    if id in channels then channels[id] else []
  }

  /** The rows and channels are those of the jobs. */
  predicate TablesAre(rows: Jobs, channels: Channels, jobs: Workings) {
    && rows.Keys == jobs.Keys && channels.Keys <= jobs.Keys
    && forall id :: id in jobs ==> rows[id] == jobs[id].row && ChannelIn(channels, id) == jobs[id].events
  }

  class RestoreRouter {
    const store: RestoreJobStore
    const bus: RestoreEventBus
    /** The worker of every job. */
    var workers: map<string, RestoreWorker>

    constructor ()
      ensures Is(EMPTY) && workers == map[] && fresh(store) && fresh(bus)
    {
      store := new RestoreJobStore();
      bus := new RestoreEventBus();
      workers := map[];
    }

    /** The worker works for the job on the one store and the one bus, and its own fields are as in `j`. */
    ghost predicate Works(worker: RestoreWorker, id: string, j: Job)
      reads worker
    {
      && worker.jobId == id && worker.store == store && worker.bus == bus && worker.config == j.config
      && worker.place == j.place && worker.lastHeartbeatAt == j.lastHeartbeatAt && worker.stalled == j.stalled
      && worker.heartbeatTimer == worker.stalledCheckTimer == j.timers
      && worker.engine.store == store && worker.engine.bus == bus && worker.engine.handlers == worker.config.handlers
    }

    ghost predicate Team(jobs: Workings)
      reads this, workers.Values
    {
      workers.Keys == jobs.Keys && forall id :: id in workers ==> Works(workers[id], id, jobs[id])
    }

    /** The tables and the workers are as in `s`. */
    ghost predicate Is(s: System)
      reads this, store, bus, workers.Values
    {
      && TablesAre(store.jobs, bus.published, s.jobs) && Team(s.jobs)
      && store.conflicts == s.conflicts && store.downloadPaths == s.downloadPaths
    }

    lemma WorkerIs(worker: RestoreWorker, id: string, s: System)
      requires Is(s) && id in workers && worker == workers[id]
      ensures worker.Valid() && worker.jobId == id && worker.Model() == s.jobs[id]
      ensures worker.store == store && worker.bus == bus
    {
      assert Works(worker, id, s.jobs[id]);
    }

    /** The handler of `POST /`: a row, and a worker that is not yet running. */
    method Create(e: Step, ghost s: System, ghost j: Job, ghost t: System)
      requires Is(s) && e.CreateJob? && j == NewWorker(e.config, e.scope, e.destination, e.mode)
      requires t == if e.id in s.jobs then s else s.(jobs := s.jobs[e.id := j])
      modifies this, store`jobs
      ensures Is(t)
      ensures forall id :: id in workers ==>
                fresh(workers[id]) || (id in old(workers) && workers[id] == old(workers)[id])
    {
      ghost var rows := store.jobs;
      var ok := store.CreateJob(e.id, e.scope, e.destination, e.mode);
      if ok {
        var worker := new RestoreWorker(e.id, e.config, store, bus);
        OneRow(rows, bus.published, s.jobs, store.jobs, bus.published, e.id, j);
        Employ(worker, e.id, s.jobs, j);
      }
    }

    method Employ(worker: RestoreWorker, id: string, ghost jobs: Workings, ghost j: Job)
      requires id !in workers && Team(jobs) && Works(worker, id, j)
      modifies this
      ensures Team(jobs[id := j]) && workers == old(workers)[id := worker]
    {
      workers := workers[id := worker];
    }

    method Answer(e: Step, ghost s: System, ghost t: System)
      requires Is(s) && e.DecisionPosted? && t == Decide(s, e.id, e.about, e.decision, e.now)
      modifies store`jobs, store`conflicts
      ensures Is(t)
    {
      ghost var rows := store.jobs;
      var accepted := Post(e, rows, s.conflicts, s.jobs);
      if accepted {
        AfterAnswer(rows, e, s, t);
      } else {
        AfterRefusal(rows, e, s, t);
      }
    }

    /** The tables after the handler, seen from those before. */
    method Post(e: Step, ghost rows: Jobs, ghost conflicts: Conflicts, ghost jobs: Workings) returns (accepted: bool)
      requires store.jobs == rows && store.conflicts == conflicts && e.DecisionPosted? && Team(jobs)
      modifies store`jobs, store`conflicts
      ensures Team(jobs) && (accepted <==> Accepts(rows, conflicts, e))
      ensures if accepted
              then && store.jobs == rows[e.id := rows[e.id].(status := Running)]
                   && store.conflicts == Resolved(conflicts, e)
              else store.jobs == rows && store.conflicts == conflicts
    {
      var answer := PostDecision(store, e.id, e.about, e.decision, e.now);
      accepted := answer == Accepted;
    }

    lemma AfterRefusal(rows: Jobs, e: Step, s: System, t: System)
      requires e.DecisionPosted? && t == Decide(s, e.id, e.about, e.decision, e.now)
      requires TablesAre(rows, bus.published, s.jobs) && Team(s.jobs) && store.downloadPaths == s.downloadPaths
      requires !Accepts(rows, s.conflicts, e) && store.jobs == rows && store.conflicts == s.conflicts
      ensures Is(t)
    {
      RowIs(rows, bus.published, s.jobs, e.id);
    }

    lemma AfterAnswer(rows: Jobs, e: Step, s: System, t: System)
      requires e.DecisionPosted? && t == Decide(s, e.id, e.about, e.decision, e.now)
      requires TablesAre(rows, bus.published, s.jobs) && Team(s.jobs) && store.downloadPaths == s.downloadPaths
      requires Accepts(rows, s.conflicts, e) && store.jobs == rows[e.id := rows[e.id].(status := Running)]
      requires store.conflicts == Resolved(s.conflicts, e)
      ensures Is(t)
    {
      RowIs(rows, bus.published, s.jobs, e.id);
      var j := s.jobs[e.id].(row := s.jobs[e.id].row.(status := Running));
      DecisionAccepted(s, e, j, t);
      OneRow(rows, bus.published, s.jobs, store.jobs, bus.published, e.id, j);
      TeamIgnoresRow(s.jobs, e.id, j);
    }

    lemma TeamIgnoresRow(jobs: Workings, id: string, j: Job)
      requires Team(jobs) && id in jobs && j == jobs[id].(row := j.row)
      ensures Team(jobs[id := j])
    {
      assert Works(workers[id], id, jobs[id]);
    }

    /** A callback runs only where a worker is suspended for it. */
    method CallBack(e: Step, ghost s: System, ghost t: System)
      requires Is(s) && !e.CreateJob? && !e.DecisionPosted? && t == Apply(s, e)
      modifies store, bus, workers.Values
      ensures Is(t)
    {
      if e.id !in workers {
        return;
      }
      var worker := workers[e.id];
      WorkerIs(worker, e.id, s);
      var enabled := CanTake(worker, e);
      if enabled {
        ghost var j := Moved(s.jobs[e.id], e);
        StepMoves(s, e, j, t);
        Resume(worker, e, s.jobs, s.jobs[e.id], j);
      }
    }

    method Resume(worker: RestoreWorker, e: Step, ghost jobs: Workings, ghost before: Job, ghost j: Job)
      requires TablesAre(store.jobs, bus.published, jobs) && Team(jobs)
      requires e.id in workers && worker == workers[e.id] && jobs[e.id] == before
      requires worker.store == store && worker.bus == bus && worker.Valid() && worker.jobId == e.id
      requires worker.Model() == before && Leads(before, e, j) && ConflictsAllow(before, e, store.conflicts)
      modifies store, bus, worker
      ensures TablesAre(store.jobs, bus.published, jobs[e.id := j]) && Team(jobs[e.id := j])
      ensures store.conflicts == ConflictsAfter(old(store.conflicts), e)
      ensures store.downloadPaths == if e.Downloaded? then old(store.downloadPaths)[e.id := e.path]
                                     else old(store.downloadPaths)
    {
      ghost var rows, channels := store.jobs, bus.published;
      TakeOnce(worker, e, jobs, before, j);
      AfterTake(rows, channels, jobs, e.id, j);
    }

    lemma AfterTake(rows: Jobs, channels: Channels, jobs: Workings, id: string, j: Job)
      requires TablesAre(rows, channels, jobs) && store.jobs == rows[id := j.row]
      requires id in workers && TeamBut(jobs, id) && Works(workers[id], id, j)
      requires ChannelIn(bus.published, id) == j.events && bus.published.Keys - {id} == channels.Keys - {id}
      requires forall k :: k != id ==> ChannelIn(channels, k) == ChannelIn(bus.published, k)
      ensures TablesAre(store.jobs, bus.published, jobs[id := j]) && Team(jobs[id := j])
    {
      OneRow(rows, channels, jobs, store.jobs, bus.published, id, j);
      TeamAfter(jobs, id, j);
    }

    /** All workers but one are as in `jobs`, and are other workers than that one. */
    ghost predicate TeamBut(jobs: Workings, id: string)
      requires id in workers
      reads this, workers.Values - {workers[id]}
    {
      && workers.Keys == jobs.Keys
      && forall k :: k in workers && k != id ==> workers[k] != workers[id] && Works(workers[k], k, jobs[k])
    }

    lemma TeamAfter(jobs: Workings, id: string, j: Job)
      requires id in workers && TeamBut(jobs, id) && Works(workers[id], id, j)
      ensures Team(jobs[id := j])
    {
    }

    method TakeOnce(worker: RestoreWorker, e: Step, ghost jobs: Workings, ghost before: Job, ghost j: Job)
      requires e.id in workers && worker == workers[e.id] && TeamBut(jobs, e.id)
      requires worker.store == store && worker.bus == bus && worker.Valid() && worker.jobId == e.id
      requires worker.Model() == before && Leads(before, e, j) && ConflictsAllow(before, e, store.conflicts)
      modifies store, bus, worker
      ensures TeamBut(jobs, e.id) && Works(worker, e.id, j) && store.jobs == old(store.jobs)[e.id := j.row]
      ensures store.conflicts == ConflictsAfter(old(store.conflicts), e)
      ensures store.downloadPaths == if e.Downloaded? then old(store.downloadPaths)[e.id := e.path]
                                     else old(store.downloadPaths)
      ensures ChannelIn(bus.published, e.id) == j.events
      ensures bus.published.Keys - {e.id} == old(bus.published.Keys) - {e.id}
      ensures forall id :: id != e.id ==> ChannelIn(bus.published, id) == ChannelIn(old(bus.published), id)
    {
      worker.Take(e);
      SameElsewhere(old(bus.published), bus.published, e.id);
    }

    method CanTake(worker: RestoreWorker, e: Step) returns (b: bool)
      requires worker.Valid()
      ensures b <==> Ready(worker.Model(), e) && ConflictsAllow(worker.Model(), e, worker.store.conflicts)
    {
      var j := Job(worker.config, worker.store.jobs[worker.jobId], worker.place, worker.heartbeatTimer,
                   worker.lastHeartbeatAt, worker.stalled, worker.bus.Channel(worker.jobId));
      b := Ready(j, e) && ConflictsAllow(j, e, worker.store.conflicts);
    }

    /** Whatever comes next: a request, a timer or an awaited answer of any job. */
    method TakeStep(e: Step, ghost s: System, ghost t: System)
      requires Is(s) && t == Apply(s, e)
      modifies this, store, bus, workers.Values
      ensures Is(t)
      ensures forall id :: id in workers ==>
                fresh(workers[id]) || (id in old(workers) && workers[id] == old(workers)[id])
    {
      if e.CreateJob? {
        ghost var j := NewWorker(e.config, e.scope, e.destination, e.mode);
        StepCreates(s, e, j, t);
        Create(e, s, j, t);
      } else if e.DecisionPosted? {
        StepDecides(s, e, t);
        Answer(e, s, t);
      } else {
        CallBack(e, s, t);
      }
    }
  }

  /** Apart from the channel of the job, nothing differs. */
  lemma SameElsewhere(before: Channels, after: Channels, id: string)
    requires before - {id} == after - {id}
    ensures before.Keys - {id} == after.Keys - {id}
    ensures forall other :: other != id ==> ChannelIn(before, other) == ChannelIn(after, other)
  {
    assert (before - {id}).Keys == before.Keys - {id} && (after - {id}).Keys == after.Keys - {id};
    forall other | other != id
      ensures ChannelIn(before, other) == ChannelIn(after, other)
    {
      assert ChannelIn(before, other) == ChannelIn(before - {id}, other);
      assert ChannelIn(after, other) == ChannelIn(after - {id}, other);
    }
  }

  /** The tables after one row and one channel changed. */
  lemma OneRow(rows: Jobs, channels: Channels, jobs: Workings, rows': Jobs, channels': Channels, id: string, j: Job)
    requires TablesAre(rows, channels, jobs) && rows' == rows[id := j.row]
    requires channels'.Keys - {id} == channels.Keys - {id} && ChannelIn(channels', id) == j.events
    requires forall other :: other != id ==> ChannelIn(channels, other) == ChannelIn(channels', other)
    ensures TablesAre(rows', channels', jobs[id := j])
  {
    var jobs' := jobs[id := j];
    assert rows'.Keys == rows.Keys + {id} && jobs'.Keys == jobs.Keys + {id};
    forall k | k in channels'
      ensures k in jobs'
    {
      assert k != id ==> k in channels'.Keys - {id};
    }
    forall k | k in jobs'
      ensures rows'[k] == jobs'[k].row && ChannelIn(channels', k) == jobs'[k].events
    {
      assert k != id ==> ChannelIn(channels, k) == ChannelIn(channels', k);
    }
  }

  /** A step of the worker of one job, which then is `j`. */
  ghost predicate OneMoved(s: System, e: Step, j: Job, t: System) {
    && e.id in s.jobs && t.jobs == s.jobs[e.id := j] && t.conflicts == ConflictsAfter(s.conflicts, e)
    && t.downloadPaths == if e.Downloaded? then s.downloadPaths[e.id := e.path] else s.downloadPaths
  }

  lemma StepCreates(s: System, e: Step, j: Job, t: System)
    requires e.CreateJob? && j == NewWorker(e.config, e.scope, e.destination, e.mode) && t == Apply(s, e)
    ensures t == if e.id in s.jobs then s else s.(jobs := s.jobs[e.id := j])
  {
  }

  lemma StepDecides(s: System, e: Step, t: System)
    requires e.DecisionPosted? && t == Apply(s, e)
    ensures t == Decide(s, e.id, e.about, e.decision, e.now)
  {
  }

  ghost predicate Leads(before: Job, e: Step, j: Job) {
    Ready(before, e) && j == Moved(before, e)
  }

  lemma StepMoves(s: System, e: Step, j: Job, t: System)
    requires !e.CreateJob? && !e.DecisionPosted? && Enabled(s, e) && j == Moved(s.jobs[e.id], e) && t == Apply(s, e)
    ensures OneMoved(s, e, j, t)
  {
  }

  lemma RowIs(rows: Jobs, channels: Channels, jobs: Workings, id: string)
    requires TablesAre(rows, channels, jobs)
    ensures if id in jobs then id in rows && rows[id] == jobs[id].row else id !in rows
  {
  }

  predicate Accepts(rows: Jobs, conflicts: Conflicts, e: Step)
    requires e.DecisionPosted?
  {
    AnswerTo(if e.id in rows then Some(rows[e.id]) else None, conflicts, e.id, e.about, e.decision) == Accepted
  }

  /** The conflicts after the decision about one of them. */
  function Resolved(conflicts: Conflicts, e: Step): Conflicts
    requires e.DecisionPosted? && e.about.Some? && e.about.value in conflicts
  {
    conflicts[e.about.value := conflicts[e.about.value].(decision := e.decision, decidedAt := Some(e.now))]
  }

  /** A decision that is accepted changes the status of one row, and its conflict. */
  lemma DecisionAccepted(s: System, e: Step, j: Job, t: System)
    requires e.DecisionPosted? && t == Decide(s, e.id, e.about, e.decision, e.now) && e.id in s.jobs
    requires AnswerTo(Some(s.jobs[e.id].row), s.conflicts, e.id, e.about, e.decision) == Accepted
    requires j == s.jobs[e.id].(row := s.jobs[e.id].row.(status := Running))
    ensures t.jobs == s.jobs[e.id := j] && t.downloadPaths == s.downloadPaths
    ensures t.conflicts == Resolved(s.conflicts, e)
  {
  }

  /** However the event loop interleaves the jobs, router and workers make a run of the life cycle. */
  method Drive(steps: seq<Step>) returns (router: RestoreRouter)
    ensures router.Is(Run(EMPTY, steps))
  {
    router := new RestoreRouter();
    for i := 0 to |steps|
      invariant fresh(router) && fresh(router.store) && fresh(router.bus)
      invariant forall id :: id in router.workers ==> fresh(router.workers[id])
      invariant router.Is(Run(EMPTY, steps[..i]))
    {
      assert steps[..i + 1][..i] == steps[..i];
      router.TakeStep(steps[i], Run(EMPTY, steps[..i]), Run(EMPTY, steps[..i + 1]));
    }
    assert steps[..|steps|] == steps;
  }
}
