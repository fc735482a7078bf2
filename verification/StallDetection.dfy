/**
 The stall detector (src/jobs/StalledJobDetector.ts). It remembers in a private set which jobs it has
 marked stalled; the lemmas say how that set follows the job table over any run of creations,
 heartbeats, completions, failures and detector passes.
 */
module StallDetection {
  import opened Common
  import opened Jobs

  predicate Stale(row: JobRow, now: int, threshold: int) {
    now - row.lastHeartbeatAt > threshold
  }

  /** The jobs that a pass at time `now` finds without a recent heartbeat. */
  predicate StaleAndActive(rows: Rows, id: string, now: int, threshold: int) {
    id in rows && Active(rows[id]) && Stale(rows[id], now, threshold)
  }

  function Overdue(rows: Rows, now: int, threshold: int): set<string> {
    set id | id in rows && StaleAndActive(rows, id, now, threshold)
  }

  /** What one pass makes of a row, given whether the job was in the detector's set. */
  function CheckedRow(row: JobRow, tracked: bool, now: int, threshold: int): JobRow {
    if !Active(row) || Stale(row, now, threshold) == tracked then row
    else row.(stalled := !tracked, status := if tracked then Running else Stalled)
  }

  function CheckedRows(rows: Rows, tracked: set<string>, now: int, threshold: int): Rows {
    map id | id in rows :: CheckedRow(rows[id], id in tracked, now, threshold)
  }

  function StalledEvents(ids: seq<string>, rows: Rows, now: int): seq<JobEvent>
    requires forall id :: id in ids ==> id in rows
  {
    if ids == [] then []
    else
      var last := ids[|ids| - 1];
      StalledEvents(ids[..|ids| - 1], rows, now) + [StalledEvent(last, now - rows[last].lastHeartbeatAt)]
  }

  /** `ids` lists the members of `all`, each once. */
  ghost predicate Lists(ids: seq<string>, all: set<string>) {
    && (forall id :: id in ids <==> id in all)
    && (forall i, j :: 0 <= i < j < |ids| ==> ids[i] != ids[j])
  }

  lemma ListOneMore(ids: seq<string>, all: set<string>, id: string, rows: Rows, now: int)
    requires Lists(ids, all) && id !in all && id in rows && forall k :: k in ids ==> k in rows
    ensures Lists(ids + [id], all + {id})
    ensures forall k :: k in ids + [id] ==> k in rows
    ensures StalledEvents(ids + [id], rows, now)
            == StalledEvents(ids, rows, now) + [StalledEvent(id, now - rows[id].lastHeartbeatAt)]
  {
    assert (ids + [id])[..|ids|] == ids;
  }

  // A pass that has dealt with the jobs in `done`

  ghost function TrackedSoFar(rows: Rows, done: set<string>, tracked: set<string>, now: int,
                              threshold: int): set<string>
  {
    (tracked - done) + set id | id in done && id in rows && Stale(rows[id], now, threshold)
  }

  ghost function CheckedSoFar(rows: Rows, done: set<string>, tracked: set<string>, now: int, threshold: int): Rows {
    map id | id in rows :: if id in done then CheckedRow(rows[id], id in tracked, now, threshold) else rows[id]
  }

  ghost function NewSoFar(rows: Rows, done: set<string>, tracked: set<string>, now: int, threshold: int): set<string> {
    set id | id in done && id in rows && Stale(rows[id], now, threshold) && id !in tracked
  }

  lemma AllChecked(rows: Rows, done: set<string>, tracked: set<string>, now: int, threshold: int)
    requires forall id :: id in done <==> id in rows && Active(rows[id])
    ensures (set id | id in TrackedSoFar(rows, done, tracked, now, threshold) && id in done)
            == Overdue(rows, now, threshold)
    ensures CheckedSoFar(rows, done, tracked, now, threshold) == CheckedRows(rows, tracked, now, threshold)
    ensures NewSoFar(rows, done, tracked, now, threshold) == Overdue(rows, now, threshold) - tracked
  {
  }

  lemma OneMoreChecked(rows: Rows, done: set<string>, tracked: set<string>, now: int, threshold: int, id: string)
    requires id in rows && id !in done && Active(rows[id])
    ensures var stale := Stale(rows[id], now, threshold);
            var before := TrackedSoFar(rows, done, tracked, now, threshold);
            && (id in before <==> id in tracked)
            && TrackedSoFar(rows, done + {id}, tracked, now, threshold)
               == if stale then before + {id} else before - {id}
    ensures var stale := Stale(rows[id], now, threshold);
            var before := CheckedSoFar(rows, done, tracked, now, threshold);
            CheckedSoFar(rows, done + {id}, tracked, now, threshold)
            == if stale == (id in tracked) then before else AfterSetStalled(before, id, stale)
    ensures NewSoFar(rows, done + {id}, tracked, now, threshold)
            == NewSoFar(rows, done, tracked, now, threshold)
               + if Stale(rows[id], now, threshold) && id !in tracked then {id} else {}
  {
  }

  /** What a pass changes: the table, the detector's set and the bus. */
  datatype Scene = Scene(rows: Rows, tracked: set<string>, published: seq<JobEvent>)

  function SetOf(ids: seq<string>): set<string> {
    set id | id in ids
  }

  /** The scene has this set and this table, and the jobs in `news` have been announced. */
  ghost predicate StandsAt(before: Scene, s: Scene, tracked: set<string>, rows: Rows, news: set<string>,
                           announced: seq<string>, now: int)
  {
    && s.tracked == tracked && s.rows == rows
    && (forall id :: id in announced ==> id in before.rows)
    && Lists(announced, news)
    && s.published == before.published + StalledEvents(announced, before.rows, now)
  }

  ghost predicate Midway(before: Scene, s: Scene, done: set<string>, announced: seq<string>, now: int, threshold: int) {
    StandsAt(before, s, TrackedSoFar(before.rows, done, before.tracked, now, threshold),
             CheckedSoFar(before.rows, done, before.tracked, now, threshold),
             NewSoFar(before.rows, done, before.tracked, now, threshold), announced, now)
  }

  /** What looking at one job makes of the scene. */
  ghost predicate JobChecked(s: Scene, t: Scene, id: string, row: JobRow, now: int, threshold: int,
                             newlyStalled: bool)
  {
    var stale := Stale(row, now, threshold);
    && (newlyStalled <==> stale && id !in s.tracked)
    && t.tracked == (if stale then s.tracked + {id} else s.tracked - {id})
    && t.rows == (if stale == (id in s.tracked) then s.rows else AfterSetStalled(s.rows, id, newlyStalled))
    && t.published == s.published + if newlyStalled then [StalledEvent(id, now - row.lastHeartbeatAt)] else []
  }

  lemma OneMoreStands(before: Scene, s: Scene, t: Scene, tracked: set<string>, rows: Rows, news: set<string>,
                      announced: seq<string>, now: int, threshold: int, id: string, newlyStalled: bool)
    requires StandsAt(before, s, tracked, rows, news, announced, now) && id in before.rows
    requires JobChecked(s, t, id, before.rows[id], now, threshold, newlyStalled) && (newlyStalled ==> id !in news)
    ensures newlyStalled ==> StandsAt(before, t, t.tracked, t.rows, news + {id}, announced + [id], now)
    ensures !newlyStalled ==> StandsAt(before, t, t.tracked, t.rows, news, announced, now)
  {
    if newlyStalled {
      ListOneMore(announced, news, id, before.rows, now);
    } else {
      assert s.published + [] == s.published;
    }
  }

  lemma MidwayStep(before: Scene, s: Scene, t: Scene, done: set<string>, announced: seq<string>, now: int,
                   threshold: int, id: string, newlyStalled: bool)
    requires Midway(before, s, done, announced, now, threshold)
    requires id in before.rows && id !in done && Active(before.rows[id])
    requires JobChecked(s, t, id, before.rows[id], now, threshold, newlyStalled)
    ensures Midway(before, t, done + {id}, if newlyStalled then announced + [id] else announced, now, threshold)
  {
    var news := NewSoFar(before.rows, done, before.tracked, now, threshold);
    OneMoreChecked(before.rows, done, before.tracked, now, threshold, id);
    OneMoreStands(before, s, t, s.tracked, s.rows, news, announced, now, threshold, id, newlyStalled);
    assert news + {} == news;
  }

  class StalledJobDetector {
    const jobStore: JobStore
    const bus: JobEventBus
    const staleThresholdMs: int
    var stalledJobIds: set<string>

    constructor (jobStore: JobStore, bus: JobEventBus, staleThresholdMs: int)
      ensures this.jobStore == jobStore && this.bus == bus && this.staleThresholdMs == staleThresholdMs
      ensures stalledJobIds == {}
    {
      this.jobStore := jobStore;
      this.bus := bus;
      this.staleThresholdMs := staleThresholdMs;
      stalledJobIds := {};
    }

    /** One pass. `announced` lists the newly stalled jobs in the order of their events. */
    method Check(now: int) returns (ghost announced: seq<string>)
      modifies this, jobStore`rows, bus
      ensures stalledJobIds == Overdue(old(jobStore.rows), now, staleThresholdMs)
      ensures jobStore.rows == CheckedRows(old(jobStore.rows), old(stalledJobIds), now, staleThresholdMs)
      ensures Lists(announced, Overdue(old(jobStore.rows), now, staleThresholdMs) - old(stalledJobIds))
      ensures bus.published == old(bus.published) + StalledEvents(announced, old(jobStore.rows), now)
    {
      var activeJobs := jobStore.GetActiveJobs();
      var snapshot := jobStore.rows;
      ghost var before := Scene(snapshot, stalledJobIds, bus.published);
      announced := [];
      for i := 0 to |activeJobs|
        invariant Midway(before, Scene(jobStore.rows, stalledJobIds, bus.published), SetOf(activeJobs[..i]), announced,
                         now, staleThresholdMs)
      {
        ghost var scene := Scene(jobStore.rows, stalledJobIds, bus.published);
        ghost var done := SetOf(activeJobs[..i]);
        assert SetOf(activeJobs[..i + 1]) == done + {activeJobs[i]};
        var newlyStalled := CheckJob(activeJobs[i], snapshot[activeJobs[i]], now);
        MidwayStep(before, scene, Scene(jobStore.rows, stalledJobIds, bus.published), done, announced, now,
                   staleThresholdMs, activeJobs[i], newlyStalled);
        if newlyStalled {
          announced := announced + [activeJobs[i]];
        }
      }
      assert activeJobs[..|activeJobs|] == activeJobs;
      AllChecked(snapshot, SetOf(activeJobs), old(stalledJobIds), now, staleThresholdMs);
      ForgetInactive(activeJobs);
    }

    /** The body of the loop over active jobs. */
    method CheckJob(id: string, row: JobRow, now: int) returns (newlyStalled: bool)
      modifies this, jobStore`rows, bus
      ensures JobChecked(Scene(old(jobStore.rows), old(stalledJobIds), old(bus.published)),
                         Scene(jobStore.rows, stalledJobIds, bus.published),
                         id, row, now, staleThresholdMs, newlyStalled)
    {
      var age := now - row.lastHeartbeatAt;
      var wasStalled := id in stalledJobIds;
      newlyStalled := false;
      if age > staleThresholdMs {
        if !wasStalled {
          newlyStalled := true;
          stalledJobIds := stalledJobIds + {id};
          jobStore.SetStalled(id, true);
          bus.Publish(StalledEvent(id, age));
        }
      } else if wasStalled {
        stalledJobIds := stalledJobIds - {id};
        jobStore.SetStalled(id, false);
      }
    }

    /** Drops the ids that are no longer active, while iterating over the set. */
    method ForgetInactive(activeJobs: seq<string>)
      modifies this
      ensures stalledJobIds == set id | id in old(stalledJobIds) && id in activeJobs
    {
      var rest := stalledJobIds;
      while rest != {}
        invariant rest <= stalledJobIds <= old(stalledJobIds)
        invariant forall id :: id in old(stalledJobIds) && id !in rest ==> (id in stalledJobIds <==> id in activeJobs)
        decreases rest
      {
        var id :| id in rest;
        rest := rest - {id};
        if id !in activeJobs {
          stalledJobIds := stalledJobIds - {id};
        }
      }
    }
  }

  // Runs

  datatype Step =
    | Create(id: string, backupPointId: string, phase: JobPhase, now: int)
    | Beat(id: string, processed: nat, failed: nat, now: int, total: Option<nat>)
    | Complete(id: string, processed: nat, failed: nat, now: int)
    | Fail(id: string, reason: string, now: int)
    | Pass(now: int)

  /** The job table, the detector's set, and the ages with which each job was announced as stalled. */
  datatype State = State(rows: Rows, tracked: set<string>, announced: map<string, seq<int>>)

  function AgesOf(announced: map<string, seq<int>>, id: string): seq<int> {
    if id in announced then announced[id] else []
  }

  function Announce(announced: map<string, seq<int>>, ids: set<string>, rows: Rows, now: int): map<string, seq<int>>
    requires ids <= rows.Keys
  {
    map id | id in announced.Keys + ids ::
      AgesOf(announced, id) + if id in ids then [now - rows[id].lastHeartbeatAt] else []
  }

  function Apply(s: State, step: Step, threshold: int): State {
    match step
    case Create(id, backupPointId, phase, now) => s.(rows := AfterCreate(s.rows, id, backupPointId, phase, now))
    case Beat(id, processed, failed, now, total) =>
      s.(rows := AfterHeartbeat(s.rows, id, processed, failed, now, total))
    case Complete(id, processed, failed, now) => s.(rows := AfterComplete(s.rows, id, processed, failed, now))
    case Fail(id, reason, now) => s.(rows := AfterSetFailed(s.rows, id, reason, now))
    case Pass(now) =>
      var overdue := Overdue(s.rows, now, threshold);
      State(CheckedRows(s.rows, s.tracked, now, threshold), overdue,
            Announce(s.announced, overdue - s.tracked, s.rows, now))
  }

  /** The state after a run that started with an empty table and a new detector. */
  function After(run: seq<Step>, threshold: int): State {
    if run == [] then State(map[], {}, map[])
    else Apply(After(run[..|run| - 1], threshold), run[|run| - 1], threshold)
  }

  /** A job whose status is `stalled` is tracked, and a tracked job has that status unless it has ended since. */
  ghost predicate Consistent(s: State, id: string) {
    && (id in s.rows && s.rows[id].status == Stalled ==> id in s.tracked)
    && (id in s.tracked ==> id in s.rows && (s.rows[id].status == Stalled || !Active(s.rows[id])))
  }

  lemma StepStaysConsistent(s: State, step: Step, threshold: int, id: string)
    requires Consistent(s, id)
    ensures Consistent(Apply(s, step, threshold), id)
  {
    match step
    case Pass(now) => assert Overdue(s.rows, now, threshold) <= s.rows.Keys;
    case _ =>
  }

  lemma {:induction false} RunsStayConsistent(run: seq<Step>, threshold: int, id: string)
    ensures Consistent(After(run, threshold), id)
  {
    if run != [] {
      var before := run[..|run| - 1];
      RunsStayConsistent(before, threshold, id);
      StepStaysConsistent(After(before, threshold), run[|run| - 1], threshold, id);
    }
  }

  /**
   One pass over any table, with any set: the set becomes the overdue active jobs. The status column follows it
   for every job except those that were marked stalled by somebody else and have had a heartbeat since, which
   is what a new detector finds when it takes over an old table.
   */
  lemma PassExactly(s: State, now: int, threshold: int, id: string)
    requires id in s.rows
    ensures var t := Apply(s, Pass(now), threshold);
            && id in t.rows
            && (id in t.tracked <==> Active(t.rows[id]) && Stale(t.rows[id], now, threshold))
            && (Active(t.rows[id]) <==> Active(s.rows[id]))
    ensures var t := Apply(s, Pass(now), threshold);
            var abandoned := s.rows[id].status == Stalled && id !in s.tracked && !Stale(s.rows[id], now, threshold);
            var lost := s.rows[id].status == Running && id in s.tracked && Stale(s.rows[id], now, threshold);
            (t.rows[id].status == Stalled <==> id in t.tracked) <==> !abandoned && !lost
  {
  }

  /**
   After every pass of every run, a job is tracked exactly when it is active and overdue, exactly when its status says
   so.
   */
  lemma TrackedMeansStalled(run: seq<Step>, now: int, threshold: int, id: string)
    ensures var s := After(run + [Pass(now)], threshold);
            && (id in s.tracked <==> StaleAndActive(s.rows, id, now, threshold))
            && (id in s.tracked <==> id in s.rows && s.rows[id].status == Stalled)
  {
    var longer := run + [Pass(now)];
    assert longer[..|run|] == run;
    RunsStayConsistent(run, threshold, id);
    if id in After(run, threshold).rows {
      PassExactly(After(run, threshold), now, threshold, id);
    }
  }

  predicate HasEnded(s: State, id: string) {
    id in s.rows && !Active(s.rows[id])
  }

  lemma StepKeepsEnded(s: State, step: Step, threshold: int, id: string, t: State)
    requires HasEnded(s, id) && t == Apply(s, step, threshold)
    ensures HasEnded(t, id)
  {
  }

  lemma OneMoreKeepsEnded(run: seq<Step>, step: Step, threshold: int, id: string, longer: seq<Step>)
    requires HasEnded(After(run, threshold), id) && longer == run + [step]
    ensures HasEnded(After(longer, threshold), id)
  {
    assert longer[..|run|] == run;
    StepKeepsEnded(After(run, threshold), step, threshold, id, After(longer, threshold));
  }

  /** A job that has completed or failed is never active again. */
  lemma {:induction false} EndedJobsStayEnded(run: seq<Step>, more: seq<Step>, threshold: int, id: string)
    requires HasEnded(After(run, threshold), id)
    ensures HasEnded(After(run + more, threshold), id)
  {
    if more == [] {
      assert run + more == run;
    } else {
      var n := |more| - 1;
      EndedJobsStayEnded(run, more[..n], threshold, id);
      assert run + more == run + more[..n] + [more[n]];
      OneMoreKeepsEnded(run + more[..n], more[n], threshold, id, run + more);
    }
  }

  // What the history alone says

  /** When the job last gave a sign of life: its creation, or its last heartbeat since. */
  function LastSign(run: seq<Step>, id: string): Option<int> {
    if run == [] then None
    else
      var before, last := LastSign(run[..|run| - 1], id), run[|run| - 1];
      if last.Create? && last.id == id && before == None then Some(last.now)
      else if last.Beat? && last.id == id && before.Some? then Some(last.now)
      else before
  }

  /** The step that created the job: later ones with its id are ignored. */
  function Creation(run: seq<Step>, id: string): Option<Step> {
    if run == [] then None
    else
      var before, last := Creation(run[..|run| - 1], id), run[|run| - 1];
      if before == None && last.Create? && last.id == id then Some(last) else before
  }

  /** The last step that ended the job since it was created. */
  function LastEnding(run: seq<Step>, id: string): Option<Step> {
    if run == [] then None
    else
      var last := run[|run| - 1];
      if (last.Complete? || last.Fail?) && last.id == id && LastSign(run[..|run| - 1], id).Some? then Some(last)
      else LastEnding(run[..|run| - 1], id)
  }

  /** The last step that reported how many items of the job were processed and how many failed. */
  function LastCounts(run: seq<Step>, id: string): (nat, nat) {
    if run == [] then (0, 0)
    else
      var last := run[|run| - 1];
      if (last.Beat? || last.Complete?) && last.id == id && LastSign(run[..|run| - 1], id).Some?
      then (last.processed, last.failed)
      else LastCounts(run[..|run| - 1], id)
  }

  /** The last total a heartbeat named. */
  function LastTotal(run: seq<Step>, id: string): Option<nat> {
    if run == [] then None
    else
      var last := run[|run| - 1];
      if last.Beat? && last.id == id && last.total.Some? && LastSign(run[..|run| - 1], id).Some? then last.total
      else LastTotal(run[..|run| - 1], id)
  }

  /** The job exists, nothing has ended it, and its last sign of life is longer ago than the threshold. */
  predicate Silent(run: seq<Step>, id: string, now: int, threshold: int) {
    LastSign(run, id).Some? && LastEnding(run, id) == None && now - LastSign(run, id).value > threshold
  }

  /** How a completed or failed job shows in its row. */
  predicate ShowsEnding(row: JobRow, ending: Step) {
    && row.completedAt.Some?
    && (ending.Fail? ==>
          && row.completedAt == Some(ending.now)
          && row.status == Failed && row.display == Some(FailedBecause(ending.reason)))
    && (ending.Complete? ==>
          && row.completedAt == Some(ending.now)
          && (ending.failed == 0 ==> row.status == Completed && row.display == Some(CompletedSuccessfully))
          && (ending.failed > 0 && ending.processed == 0 ==>
                row.status == Failed && row.display == Some(NothingSucceeded))
          && (ending.failed > 0 && ending.processed > 0 ==>
                row.status == CompletedWithErrors && row.display == Some(CompletedWith(ending.failed))))
  }

  /** The row of a job is what the steps about it say; detector passes touch nothing but its status. */
  ghost predicate RowOk(rows: Rows, run: seq<Step>, id: string) {
    && (id in rows <==> LastSign(run, id).Some?) && (id in rows <==> Creation(run, id).Some?)
    && (id in rows ==>
          var row, first := rows[id], Creation(run, id).value;
          && first.Create? && row.createdAt == first.now && row.backupPointId == first.backupPointId
          && row.phase == first.phase && (row.stalled ==> row.status == Stalled))
    && (id !in rows ==> LastEnding(run, id) == None && LastCounts(run, id) == (0, 0) && LastTotal(run, id) == None)
    && (id in rows ==>
          var row, ending := rows[id], LastEnding(run, id);
          && row.lastHeartbeatAt == LastSign(run, id).value
          && (row.itemsProcessed, row.itemsFailed) == LastCounts(run, id) && row.itemsTotal == LastTotal(run, id)
          && (row.status == Running || row.status == Stalled <==> ending == None)
          && (ending.Some? ==> ShowsEnding(row, ending.value))
          && (ending == None ==> row.display == None && row.completedAt == None))
  }

  lemma OneMoreIsOk(run: seq<Step>, step: Step, s: State, threshold: int, id: string, longer: seq<Step>, t: State)
    requires RowOk(s.rows, run, id) && longer == run + [step] && t == Apply(s, step, threshold)
    ensures RowOk(t.rows, longer, id)
  {
    assert longer[..|run|] == run;
  }

  lemma {:induction false} RowFollowsHistory(run: seq<Step>, threshold: int, id: string)
    ensures RowOk(After(run, threshold).rows, run, id)
  {
    if run != [] {
      var n := |run| - 1;
      RowFollowsHistory(run[..n], threshold, id);
      assert run == run[..n] + [run[n]];
      OneMoreIsOk(run[..n], run[n], After(run[..n], threshold), threshold, id, run, After(run, threshold));
    }
  }

  /**
   After every pass of every run, a job is tracked, and shown as stalled, exactly when the steps so far have created
   and not ended it and its last sign of life is longer ago than the threshold.
   */
  lemma TrackedExactlyWhenSilent(run: seq<Step>, now: int, threshold: int, id: string)
    ensures var s := After(run + [Pass(now)], threshold);
            && (id in s.tracked <==> Silent(run, id, now, threshold))
            && (id in s.rows && s.rows[id].status == Stalled <==> Silent(run, id, now, threshold))
  {
    var longer := run + [Pass(now)];
    assert longer[..|run|] == run;
    TrackedMeansStalled(run, now, threshold, id);
    RowFollowsHistory(run, threshold, id);
  }

  /** Whether the last pass of a run found the job silent; before the first pass, no. */
  function SilentAtLastPass(run: seq<Step>, threshold: int, id: string): bool {
    if run == [] then false
    else
      var before, last := run[..|run| - 1], run[|run| - 1];
      if last.Pass? then Silent(before, id, last.now, threshold) else SilentAtLastPass(before, threshold, id)
  }

  /** The ages at the passes that find the job silent when the pass before did not. */
  function EpisodeAges(run: seq<Step>, threshold: int, id: string): seq<int> {
    if run == [] then []
    else
      var before, last := run[..|run| - 1], run[|run| - 1];
      EpisodeAges(before, threshold, id)
      + if last.Pass? && Silent(before, id, last.now, threshold) && !SilentAtLastPass(before, threshold, id)
        then [last.now - LastSign(before, id).value]
        else []
  }

  lemma {:induction false} TrackedSinceLastPass(run: seq<Step>, threshold: int, id: string)
    ensures id in After(run, threshold).tracked <==> SilentAtLastPass(run, threshold, id)
  {
    if run != [] {
      var n := |run| - 1;
      TrackedSinceLastPass(run[..n], threshold, id);
      RowFollowsHistory(run[..n], threshold, id);
    }
  }

  /** Whether a pass has found the job newly silent and no heartbeat, ending or recovery has come since. */
  function Flagged(run: seq<Step>, threshold: int, id: string): bool {
    if run == [] then false
    else
      var before, last := run[..|run| - 1], run[|run| - 1];
      match last
      case Create(_, _, _, _) => Flagged(before, threshold, id)
      case Pass(now) =>
        && Silent(before, id, now, threshold)
        && (SilentAtLastPass(before, threshold, id) ==> Flagged(before, threshold, id))
      case _ => last.id != id && Flagged(before, threshold, id)
  }

  /**
   The `stalled` column is not the status: a heartbeat clears it at once, and a job that falls silent again before the
   next pass stays without it, although its status still says stalled.
   */
  lemma {:induction false} ColumnFollowsHistory(run: seq<Step>, threshold: int, id: string)
    ensures var rows := After(run, threshold).rows;
            Flagged(run, threshold, id) <==> id in rows && rows[id].stalled
  {
    if run != [] {
      var n := |run| - 1;
      ColumnFollowsHistory(run[..n], threshold, id);
      RunsStayConsistent(run[..n], threshold, id);
      TrackedSinceLastPass(run[..n], threshold, id);
      RowFollowsHistory(run[..n], threshold, id);
    }
  }

  lemma PassAnnounces(s: State, now: int, threshold: int, id: string, t: State, news: set<string>)
    requires t == Apply(s, Pass(now), threshold) && news == Overdue(s.rows, now, threshold) - s.tracked
    ensures id in news ==> id in s.rows
    ensures id in news <==> id in t.tracked && id !in s.tracked
    ensures AgesOf(t.announced, id)
            == AgesOf(s.announced, id) + if id in news then [now - s.rows[id].lastHeartbeatAt] else []
  {
  }

  /** Exactly one stalled event is published per episode, and it says how long the job has been silent. */
  lemma {:induction false} OneEventPerEpisode(run: seq<Step>, threshold: int, id: string)
    ensures AgesOf(After(run, threshold).announced, id) == EpisodeAges(run, threshold, id)
  {
    if run != [] {
      var n := |run| - 1;
      var before := run[..n];
      OneEventPerEpisode(before, threshold, id);
      TrackedSinceLastPass(before, threshold, id);
      TrackedSinceLastPass(run, threshold, id);
      RowFollowsHistory(before, threshold, id);
      if run[n].Pass? {
        var s := After(before, threshold);
        PassAnnounces(s, run[n].now, threshold, id, After(run, threshold),
                      Overdue(s.rows, run[n].now, threshold) - s.tracked);
      }
    }
  }

  // The detector and the table it watches

  /** The ages with which the job was announced on the bus. */
  function AgesIn(published: seq<JobEvent>, id: string): seq<int> {
    if published == [] then []
    else
      var last := published[|published| - 1];
      AgesIn(published[..|published| - 1], id)
      + if last.StalledEvent? && last.jobId == id then [last.lastHeartbeatAgeMs] else []
  }

  lemma {:induction false} AgesInConcat(a: seq<JobEvent>, b: seq<JobEvent>, id: string)
    ensures AgesIn(a + b, id) == AgesIn(a, id) + AgesIn(b, id)
  {
    if b == [] {
      assert a + b == a;
    } else {
      var n := |b| - 1;
      assert (a + b)[..|a + b| - 1] == a + b[..n];
      AgesInConcat(a, b[..n], id);
    }
  }

  lemma OneStalled(events: seq<JobEvent>, k: string, age: int, id: string, after: seq<JobEvent>)
    requires after == events + [StalledEvent(k, age)]
    ensures AgesIn(after, id) == if k == id then AgesIn(events, id) + [age] else AgesIn(events, id)
  {
    assert after[..|events|] == events;
  }

  lemma {:induction false} NotAmongTheStalled(ids: seq<string>, rows: Rows, now: int, id: string, events: seq<JobEvent>)
    requires (forall k :: k in ids ==> k in rows) && id !in ids && events == StalledEvents(ids, rows, now)
    ensures AgesIn(events, id) == []
  {
    if ids != [] {
      var n := |ids| - 1;
      var before := StalledEvents(ids[..n], rows, now);
      NotAmongTheStalled(ids[..n], rows, now, id, before);
      OneStalled(before, ids[n], now - rows[ids[n]].lastHeartbeatAt, id, events);
    }
  }

  ghost predicate Distinct(ids: seq<string>) {
    forall i, j :: 0 <= i < j < |ids| ==> ids[i] != ids[j]
  }

  lemma DistinctPrefix(ids: seq<string>, n: nat)
    requires Distinct(ids) && |ids| == n + 1
    ensures Distinct(ids[..n]) && ids[n] !in ids[..n]
    ensures forall id :: id in ids <==> id in ids[..n] || id == ids[n]
  {
    assert ids == ids[..n] + [ids[n]];
  }

  lemma {:induction false} AgesOfStalled(ids: seq<string>, rows: Rows, now: int, id: string, events: seq<JobEvent>)
    requires (forall k :: k in ids ==> k in rows) && Distinct(ids) && events == StalledEvents(ids, rows, now)
    ensures AgesIn(events, id) == if id in ids then [now - rows[id].lastHeartbeatAt] else []
  {
    if ids != [] {
      var n := |ids| - 1;
      var before, last := StalledEvents(ids[..n], rows, now), ids[n];
      DistinctPrefix(ids, n);
      OneStalled(before, last, now - rows[last].lastHeartbeatAt, id, events);
      if last == id {
        NotAmongTheStalled(ids[..n], rows, now, id, before);
      } else {
        AgesOfStalled(ids[..n], rows, now, id, before);
      }
    }
  }

  /** A pass announces on the bus what the model of it announces. */
  lemma PassPublishes(s: State, now: int, threshold: int, announced: seq<string>, before: seq<JobEvent>,
                      after: seq<JobEvent>, t: State, id: string, news: set<string>)
    requires t == Apply(s, Pass(now), threshold) && news == Overdue(s.rows, now, threshold) - s.tracked
    requires Lists(announced, news) && forall k :: k in announced ==> k in s.rows
    requires after == before + StalledEvents(announced, s.rows, now) && AgesIn(before, id) == AgesOf(s.announced, id)
    ensures AgesIn(after, id) == AgesOf(t.announced, id)
  {
    PassAnnounces(s, now, threshold, id, t, news);
    AgesInConcat(before, StalledEvents(announced, s.rows, now), id);
    AgesOfStalled(announced, s.rows, now, id, StalledEvents(announced, s.rows, now));
  }

  method TakeStep(detector: StalledJobDetector, step: Step)
    modifies detector, detector.jobStore`rows, detector.bus
    ensures var s := State(old(detector.jobStore.rows), old(detector.stalledJobIds), map[]);
            var t := Apply(s, step, detector.staleThresholdMs);
            detector.jobStore.rows == t.rows && detector.stalledJobIds == t.tracked
    ensures if step.Pass?
            then exists ids ::
                   && Lists(ids, Overdue(old(detector.jobStore.rows), step.now, detector.staleThresholdMs)
                                 - old(detector.stalledJobIds))
                   && detector.bus.published
                      == old(detector.bus.published) + StalledEvents(ids, old(detector.jobStore.rows), step.now)
            else detector.bus.published == old(detector.bus.published)
  {
    match step {
      case Create(id, backupPointId, phase, now) => detector.jobStore.CreateJob(id, backupPointId, phase, now);
      case Beat(id, processed, failed, now, total) =>
        detector.jobStore.UpdateHeartbeat(id, processed, failed, now, total);
      case Complete(id, processed, failed, now) => detector.jobStore.CompleteJob(id, processed, failed, now);
      case Fail(id, reason, now) => detector.jobStore.SetFailed(id, reason, now);
      case Pass(now) => var _ := detector.Check(now);
    }
  }

  /** The detector's passes and the updates of other code make the runs above, event by event. */
  method Drive(run: seq<Step>, threshold: int) returns (detector: StalledJobDetector)
    ensures detector.jobStore.rows == After(run, threshold).rows
    ensures detector.stalledJobIds == After(run, threshold).tracked
    ensures forall id :: AgesIn(detector.bus.published, id) == EpisodeAges(run, threshold, id)
  {
    var jobStore := new JobStore();
    var bus := new JobEventBus();
    detector := new StalledJobDetector(jobStore, bus, threshold);
    for i := 0 to |run|
      invariant fresh(detector) && detector.jobStore == jobStore && detector.bus == bus && fresh(jobStore) && fresh(bus)
      invariant detector.staleThresholdMs == threshold
      invariant Tells(After(run[..i], threshold), jobStore.rows, detector.stalledJobIds, bus.published)
    {
      ghost var s, published := After(run[..i], threshold), bus.published;
      assert run[..i + 1][..i] == run[..i];
      TakeStep(detector, run[i]);
      StepTells(s, run[i], threshold, published, bus.published);
    }
    assert run[..|run|] == run;
    forall id
      ensures AgesIn(bus.published, id) == EpisodeAges(run, threshold, id)
    {
      OneEventPerEpisode(run, threshold, id);
    }
  }

  ghost predicate Tells(s: State, rows: Rows, tracked: set<string>, published: seq<JobEvent>) {
    rows == s.rows && tracked == s.tracked && forall id :: AgesIn(published, id) == AgesOf(s.announced, id)
  }

  lemma StepTells(s: State, step: Step, threshold: int, before: seq<JobEvent>, after: seq<JobEvent>)
    requires forall id :: AgesIn(before, id) == AgesOf(s.announced, id)
    requires if step.Pass?
             then exists ids :: Lists(ids, Overdue(s.rows, step.now, threshold) - s.tracked)
                                && after == before + StalledEvents(ids, s.rows, step.now)
             else after == before
    ensures forall id :: AgesIn(after, id) == AgesOf(Apply(s, step, threshold).announced, id)
  {
    if step.Pass? {
      var ids :| Lists(ids, Overdue(s.rows, step.now, threshold) - s.tracked)
                 && after == before + StalledEvents(ids, s.rows, step.now);
      forall id
        ensures AgesIn(after, id) == AgesOf(Apply(s, step, threshold).announced, id)
      {
        PassPublishes(s, step.now, threshold, ids, before, after, Apply(s, step, threshold), id,
                      Overdue(s.rows, step.now, threshold) - s.tracked);
      }
    }
  }
}
