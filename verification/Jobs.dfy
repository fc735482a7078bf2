/**
 Backup jobs: the job table (src/jobs/JobStore.ts), the event bus (src/jobs/JobEventBus.ts) and the
 heartbeat emitter (src/jobs/HeartbeatEmitter.ts). Rows are a map; every update of a missing row
 changes nothing, as in SQL. Times are milliseconds.
 */
module Jobs {
  import opened Common

  datatype JobPhase = Issues | Attachments | Context

  datatype JobStatus = Running | Stalled | Completed | CompletedWithErrors | Failed

  /** The text shown to the user, reduced to what it distinguishes. */
  datatype Display =
    | CompletedSuccessfully
    | CompletedWith(errors: nat)
    | NothingSucceeded
    | FailedBecause(reason: string)

  datatype JobRow = JobRow(
    backupPointId: string,
    phase: JobPhase,
    status: JobStatus,
    display: Option<Display>,
    itemsProcessed: nat,
    itemsFailed: nat,
    itemsTotal: Option<nat>,
    lastHeartbeatAt: int,
    stalled: bool,
    createdAt: int,
    completedAt: Option<int>)

  type Rows = map<string, JobRow>

  predicate Active(row: JobRow) {
    row.status == Running || row.status == Stalled
  }

  datatype JobEvent =
    | Heartbeat(jobId: string, itemsProcessed: nat, itemsFailed: nat)
    | StalledEvent(jobId: string, lastHeartbeatAgeMs: int)
    | Terminal(jobId: string, itemsProcessed: nat, itemsFailed: nat, display: Option<Display>)

  datatype ErrorCode = ApiError | AttachmentError

  /** A row of the error table; its item type and item id are those of `item`. */
  datatype JobError = JobError(jobId: string, backupPointId: string, item: ItemId, errorCode: ErrorCode)

  // Row updates

  /** Inserting an id that exists is ignored. */
  function AfterCreate(rows: Rows, id: string, backupPointId: string, phase: JobPhase, now: int): Rows {
    if id in rows then rows
    else rows[id := JobRow(backupPointId, phase, Running, None, 0, 0, None, now, false, now, None)]
  }

  /** A heartbeat clears the `stalled` column but leaves `status` alone. */
  function AfterHeartbeat(rows: Rows, id: string, processed: nat, failed: nat, now: int, total: Option<nat>): Rows {
    if id !in rows then rows
    else
      var row := rows[id];
      rows[id := row.(
        itemsProcessed := processed,
        itemsFailed := failed,
        lastHeartbeatAt := now,
        itemsTotal := if total.Some? then total else row.itemsTotal,
        stalled := false)]
  }

  function AfterSetStalled(rows: Rows, id: string, stalled: bool): Rows {
    if id !in rows then rows
    else rows[id := rows[id].(stalled := stalled, status := if stalled then Stalled else Running)]
  }

  function FinalStatus(processed: nat, failed: nat): JobStatus {
    if failed == 0 then Completed else if processed == 0 then Failed else CompletedWithErrors
  }

  function FinalDisplay(processed: nat, failed: nat): Display {
    if failed == 0 then CompletedSuccessfully else if processed == 0 then NothingSucceeded else CompletedWith(failed)
  }

  function AfterComplete(rows: Rows, id: string, processed: nat, failed: nat, now: int): Rows {
    if id !in rows then rows
    else rows[id := rows[id].(
      status := FinalStatus(processed, failed),
      display := Some(FinalDisplay(processed, failed)),
      itemsProcessed := processed,
      itemsFailed := failed,
      completedAt := Some(now),
      stalled := false)]
  }

  function AfterSetFailed(rows: Rows, id: string, reason: string, now: int): Rows {
    if id !in rows then rows
    else rows[id := rows[id].(
      status := Failed, display := Some(FailedBecause(reason)), completedAt := Some(now), stalled := false)]
  }

  class JobStore {
    var rows: Rows
    var events: seq<JobEvent>
    var errors: seq<JobError>

    constructor ()
      ensures rows == map[] && events == [] && errors == []
    {
      rows := map[];
      events := [];
      errors := [];
    }

    method CreateJob(id: string, backupPointId: string, phase: JobPhase, now: int)
      modifies this`rows
      ensures rows == AfterCreate(old(rows), id, backupPointId, phase, now)
    {
      if id !in rows {
        rows := rows[id := JobRow(backupPointId, phase, Running, None, 0, 0, None, now, false, now, None)];
      }
    }

    method UpdateHeartbeat(id: string, processed: nat, failed: nat, now: int, total: Option<nat>)
      modifies this`rows
      ensures rows == AfterHeartbeat(old(rows), id, processed, failed, now, total)
    {
      if id in rows {
        var row := rows[id];
        var coalesced := if total.Some? then total else row.itemsTotal;
        rows := rows[id := row.(itemsProcessed := processed, itemsFailed := failed, lastHeartbeatAt := now,
                                itemsTotal := coalesced, stalled := false)];
      }
    }

    method SetStalled(id: string, stalled: bool)
      modifies this`rows
      ensures rows == AfterSetStalled(old(rows), id, stalled)
    {
      if id in rows {
        rows := rows[id := rows[id].(stalled := stalled, status := if stalled then Stalled else Running)];
      }
    }

    method CompleteJob(id: string, processed: nat, failed: nat, now: int)
      modifies this`rows
      ensures rows == AfterComplete(old(rows), id, processed, failed, now)
    {
      var status := if failed == 0 then Completed else if processed == 0 then Failed else CompletedWithErrors;
      var display := if failed == 0 then CompletedSuccessfully
                     else if processed == 0 then NothingSucceeded
                     else CompletedWith(failed);
      if id in rows {
        rows := rows[id := rows[id].(status := status, display := Some(display), itemsProcessed := processed,
                                     itemsFailed := failed, completedAt := Some(now), stalled := false)];
      }
    }

    method SetFailed(id: string, reason: string, now: int)
      modifies this`rows
      ensures rows == AfterSetFailed(old(rows), id, reason, now)
    {
      if id in rows {
        rows := rows[id := rows[id].(status := Failed, display := Some(FailedBecause(reason)),
                                     completedAt := Some(now), stalled := false)];
      }
    }

    /** The active rows, each once, in no particular order. */
    method GetActiveJobs() returns (ids: seq<string>)
      ensures forall id :: id in ids <==> id in rows && Active(rows[id])
      ensures forall i, j :: 0 <= i < j < |ids| ==> ids[i] != ids[j]
    {
      ids := [];
      var rest := rows.Keys;
      while rest != {}
        invariant rest <= rows.Keys
        invariant forall id :: id in ids <==> id in rows && id !in rest && Active(rows[id])
        invariant forall i, j :: 0 <= i < j < |ids| ==> ids[i] != ids[j]
        decreases rest
      {
        var id :| id in rest;
        rest := rest - {id};
        if rows[id].status == Running || rows[id].status == Stalled {
          ids := ids + [id];
        }
      }
    }

    method InsertJobEvent(event: JobEvent)
      modifies this`events
      ensures events == old(events) + [event]
    {
      events := events + [event];
    }

    method InsertJobError(error: JobError)
      modifies this`errors
      ensures errors == old(errors) + [error]
    {
      errors := errors + [error];
    }
  }

  /** The in-process bus, seen as the list of what was published. */
  class JobEventBus {
    var published: seq<JobEvent>

    constructor ()
      ensures published == []
    {
      published := [];
    }

    method Publish(event: JobEvent)
      modifies this
      ensures published == old(published) + [event]
    {
      published := published + [event];
    }
  }

  class HeartbeatEmitter {
    const jobId: string
    const backupPointId: string
    const phase: JobPhase
    const intervalMs: int
    const jobStore: JobStore
    const bus: JobEventBus
    var itemsProcessed: nat
    var itemsFailed: nat
    var itemsTotal: Option<nat>
    var lastHeartbeatAt: int
    var timer: bool

    constructor (jobId: string, backupPointId: string, phase: JobPhase, intervalMs: int, itemsTotal: Option<nat>,
                 jobStore: JobStore, bus: JobEventBus, now: int)
      ensures this.jobId == jobId && this.backupPointId == backupPointId && this.phase == phase
      ensures this.intervalMs == intervalMs && this.itemsTotal == itemsTotal
      ensures this.jobStore == jobStore && this.bus == bus
      ensures itemsProcessed == 0 && itemsFailed == 0 && lastHeartbeatAt == now && !timer
    {
      this.jobId := jobId;
      this.backupPointId := backupPointId;
      this.phase := phase;
      this.intervalMs := intervalMs;
      this.jobStore := jobStore;
      this.bus := bus;
      this.itemsTotal := itemsTotal;
      itemsProcessed := 0;
      itemsFailed := 0;
      lastHeartbeatAt := now;
      timer := false;
    }

    method Start(now: int)
      modifies this`timer, jobStore`rows
      ensures timer
      ensures jobStore.rows == AfterCreate(old(jobStore.rows), jobId, backupPointId, phase, now)
    {
      jobStore.CreateJob(jobId, backupPointId, phase, now);
      timer := true;
    }

    /**
     Counts one item; a heartbeat goes out only when the interval has passed. It carries the key of the item, and is
     lost in an exception when the key cannot be bound.
     */
    method Tick(failed: bool, keyBinds: bool, now: int) returns (threw: bool)
      modifies this`itemsProcessed, this`itemsFailed, this`lastHeartbeatAt, jobStore`rows, jobStore`events, bus
      ensures itemsProcessed == old(itemsProcessed) + (if failed then 0 else 1)
      ensures itemsFailed == old(itemsFailed) + (if failed then 1 else 0)
      ensures threw <==> now - old(lastHeartbeatAt) >= intervalMs && !keyBinds
      ensures var due := now - old(lastHeartbeatAt) >= intervalMs;
              && lastHeartbeatAt == (if due then now else old(lastHeartbeatAt))
              && jobStore.rows == (if due && keyBinds
                                   then AfterHeartbeat(old(jobStore.rows), jobId, itemsProcessed, itemsFailed, now,
                                                       itemsTotal)
                                   else old(jobStore.rows))
              && jobStore.events == old(jobStore.events)
                + (if due && keyBinds then [Heartbeat(jobId, itemsProcessed, itemsFailed)] else [])
              && bus.published == old(bus.published)
                + (if due && keyBinds then [Heartbeat(jobId, itemsProcessed, itemsFailed)] else [])
    {
      if failed {
        itemsFailed := itemsFailed + 1;
      } else {
        itemsProcessed := itemsProcessed + 1;
      }
      threw := false;
      if now - lastHeartbeatAt >= intervalMs {
        threw := Flush(keyBinds, now);
      }
    }

    method Stop()
      modifies this`timer
      ensures !timer
    {
      if timer {
        timer := false;
      }
    }

    method Complete(now: int)
      modifies this`timer, jobStore`rows, jobStore`events, bus
      ensures !timer
      ensures jobStore.rows == AfterComplete(old(jobStore.rows), jobId, itemsProcessed, itemsFailed, now)
      ensures var display := if jobId in jobStore.rows then jobStore.rows[jobId].display else None;
              var event := Terminal(jobId, itemsProcessed, itemsFailed, display);
              jobStore.events == old(jobStore.events) + [event] && bus.published == old(bus.published) + [event]
    {
      Stop();
      jobStore.CompleteJob(jobId, itemsProcessed, itemsFailed, now);
      var display := if jobId in jobStore.rows then jobStore.rows[jobId].display else None;
      var event := Terminal(jobId, itemsProcessed, itemsFailed, display);
      jobStore.InsertJobEvent(event);
      bus.Publish(event);
    }

    /** Also what the periodic timer runs, without a key, as long as it is armed. */
    method Flush(keyBinds: bool, now: int) returns (threw: bool)
      modifies this`lastHeartbeatAt, jobStore`rows, jobStore`events, bus
      ensures lastHeartbeatAt == now && threw == !keyBinds
      ensures threw ==> jobStore.rows == old(jobStore.rows) && jobStore.events == old(jobStore.events)
                        && bus.published == old(bus.published)
      ensures !threw ==>
                && jobStore.rows
                   == AfterHeartbeat(old(jobStore.rows), jobId, itemsProcessed, itemsFailed, now, itemsTotal)
                && jobStore.events == old(jobStore.events) + [Heartbeat(jobId, itemsProcessed, itemsFailed)]
                && bus.published == old(bus.published) + [Heartbeat(jobId, itemsProcessed, itemsFailed)]
    {
      lastHeartbeatAt := now;
      var event := Heartbeat(jobId, itemsProcessed, itemsFailed);
      if !keyBinds {
        return true;
      }
      jobStore.InsertJobEvent(event);
      jobStore.UpdateHeartbeat(jobId, itemsProcessed, itemsFailed, now, itemsTotal);
      bus.Publish(event);
      threw := false;
    }
  }
}
