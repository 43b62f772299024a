/** The earlier `BackgroundTaskManager`, which keeps its own `tasks`
    dictionary: ids built from the background task name and the current second, a
    progress callback that clamps to [0, 100], cancellation and a timeout
    that only touch running tasks, and a purge measured from the start
    time. The executor, its single worker and the sleeping timeout thread
    are replaced by explicit calls in a sequential order; the clock and
    "the future is done" are parameters. */
module TaskPool {
  import opened Base

  datatype PoolRecord = PoolRecord(
    status: string,
    startTime: real,
    progress: real,
    result: Option<string>,
    error: Option<string>,
    errorDetails: Option<string>,
    message: string,
    timeout: int)

  /** `f"{task_name}_{int(time.time())}"`. */
  function TaskId(name: string, now: real): string
  {
    name + "_" + IntToString(Trunc(now))
  }

  /** Two starts of the same name get the same id exactly when they fall in
      the same whole second (so the later one replaces the earlier record). */
  lemma TaskIdSameSecond(name: string, t1: real, t2: real)
    ensures TaskId(name, t1) == TaskId(name, t2) <==> Trunc(t1) == Trunc(t2)
  {
    if TaskId(name, t1) == TaskId(name, t2) {
      var k := |name| + 1;
      assert TaskId(name, t1)[k..] == IntToString(Trunc(t1));
      assert TaskId(name, t2)[k..] == IntToString(Trunc(t2));
      IntToStringInjective(Trunc(t1), Trunc(t2));
    }
  }

  function Initial(now: real, timeout: int): PoolRecord
  {
    PoolRecord("starting", now, 0.0, None, None, None, "İşlem başlatılıyor...", timeout)
  }

  /** `min(100, max(0, p * 100))`. */
  function ClampPercent(p: real): (r: real)
    ensures 0.0 <= r <= 100.0
    ensures 0.0 <= p <= 1.0 ==> r == p * 100.0
    ensures p < 0.0 ==> r == 0.0
    ensures p > 1.0 ==> r == 100.0
  {
    if p * 100.0 < 0.0 then 0.0 else if p * 100.0 > 100.0 then 100.0 else p * 100.0
  }

  /** Statuses from which a task may be purged. */
  predicate Finished(status: string)
  {
    status == "completed" || status == "failed" || status == "canceled"
  }

  predicate TooOld(r: PoolRecord, now: real, maxAge: real)
  {
    Finished(r.status) && now - r.startTime > maxAge
  }

  function Purged(tasks: map<string, PoolRecord>, now: real, maxAge: real): (m: map<string, PoolRecord>)
    ensures forall id :: id in m <==> id in tasks && !TooOld(tasks[id], now, maxAge)
    ensures forall id :: id in m ==> m[id] == tasks[id]
  {
    map id | id in tasks && !TooOld(tasks[id], now, maxAge) :: tasks[id]
  }

  class TaskManager {
    var tasks: map<string, PoolRecord>

    constructor()
      ensures tasks == map[]
    {
      tasks := map[];
    }

    /** `start_task`: the record replaces any record under the same id. */
    method StartTask(name: string, now: real, timeout: int) returns (id: string)
      modifies this
      ensures id == TaskId(name, now)
      ensures tasks == old(tasks)[id := Initial(now, timeout)]
    {
      id := name + "_" + IntToString(Trunc(now));
      tasks := tasks[id := Initial(now, timeout)];
    }

    /** The first step of `_run_task`, which indexes the table without a
        presence check; for a missing id the KeyError reaches the `except`,
        which writes nothing for a missing id either. */
    method MarkRunning(id: string)
      modifies this
      ensures id in old(tasks) ==>
        tasks == old(tasks)[id := old(tasks)[id].(status := "running", message := "İşlem çalışıyor...")]
      ensures id !in old(tasks) ==> tasks == old(tasks)
    {
      if id in tasks {
        tasks := tasks[id := tasks[id].(status := "running", message := "İşlem çalışıyor...")];
      }
    }

    /** The progress callback handed to the background task: clamps the percentage and
        replaces the message only when a non-empty one is given; a purged id
        is ignored. */
    method ReportProgress(id: string, p: real, message: Option<string>)
      modifies this
      ensures id in old(tasks) ==>
        tasks == old(tasks)[id := old(tasks)[id].(
          progress := ClampPercent(p),
          message := if message.Some? && message.value != "" then message.value else old(tasks)[id].message)]
      ensures id !in old(tasks) ==> tasks == old(tasks)
    {
      if id in tasks {
        var r := tasks[id].(progress := ClampPercent(p));
        if message.Some? && message.value != "" {
          r := r.(message := message.value);
        }
        tasks := tasks[id := r];
      }
    }

    /** Successful end of `_run_task`. There is no status check, so a task
        that was canceled or timed out is overwritten to 'completed'. */
    method Complete(id: string, result: string)
      modifies this
      ensures id in old(tasks) ==>
        tasks == old(tasks)[id := old(tasks)[id].(status := "completed", result := Some(result),
          progress := 100.0, message := "İşlem başarıyla tamamlandı.")]
      ensures id !in old(tasks) ==> tasks == old(tasks)
    {
      if id in tasks {
        tasks := tasks[id := tasks[id].(status := "completed", result := Some(result),
          progress := 100.0, message := "İşlem başarıyla tamamlandı.")];
      }
    }

    /** Failed end of `_run_task`; also written only for a present id. */
    method Fail(id: string, error: string, details: string)
      modifies this
      ensures id in old(tasks) ==>
        tasks == old(tasks)[id := old(tasks)[id].(status := "failed", error := Some(error),
          errorDetails := Some(details), message := "Hata: " + error)]
      ensures id !in old(tasks) ==> tasks == old(tasks)
    {
      if id in tasks {
        tasks := tasks[id := tasks[id].(status := "failed", error := Some(error),
          errorDetails := Some(details), message := "Hata: " + error)];
      }
    }

    /** The timeout handler once its sleep is over: only a task whose future
        is not done and whose status is 'running' becomes 'failed'. */
    method TimeoutFired(id: string, futureDone: bool)
      modifies this
      ensures !futureDone && id in old(tasks) && old(tasks)[id].status == "running" ==>
        tasks == old(tasks)[id := old(tasks)[id].(status := "failed",
          error := Some("İşlem zaman aşımına uğradı"), message := "Zaman aşımı hatası!")]
      ensures !(!futureDone && id in old(tasks) && old(tasks)[id].status == "running") ==>
        tasks == old(tasks)
    {
      if !futureDone && id in tasks && tasks[id].status == "running" {
        tasks := tasks[id := tasks[id].(status := "failed",
          error := Some("İşlem zaman aşımına uğradı"), message := "Zaman aşımı hatası!")];
      }
    }

    /** `get_task_status`: None for an unknown id. */
    method GetTaskStatus(id: string) returns (r: Option<PoolRecord>)
      ensures id in tasks ==> r == Some(tasks[id])
      ensures id !in tasks ==> r.None?
    {
      r := if id in tasks then Some(tasks[id]) else None;
    }

    /** `cancel_task`: marks a running task as canceled and says so; any
        other task, or an unknown id, is left alone. */
    method CancelTask(id: string) returns (canceled: bool)
      modifies this
      ensures canceled <==> id in old(tasks) && old(tasks)[id].status == "running"
      ensures canceled ==> tasks == old(tasks)[id := old(tasks)[id].(status := "canceled")]
      ensures !canceled ==> tasks == old(tasks)
    {
      if id in tasks && tasks[id].status == "running" {
        tasks := tasks[id := tasks[id].(status := "canceled")];
        return true;
      }
      return false;
    }

    /** `cleanup_completed_tasks`: first collects the finished records older
        than `maxAge` (from their start time), then deletes them. */
    method CleanupCompletedTasks(maxAge: real, now: real)
      modifies this
      ensures tasks == Purged(old(tasks), now, maxAge)
    {
      var toRemove: set<string> := {};
      var pending := tasks.Keys;
      while pending != {}
        invariant pending <= tasks.Keys
        invariant toRemove == set id | id in tasks && id !in pending && TooOld(tasks[id], now, maxAge)
        decreases pending
      {
        var id :| id in pending;
        if TooOld(tasks[id], now, maxAge) {
          toRemove := toRemove + {id};
        }
        pending := pending - {id};
      }
      tasks := map id | id in tasks && id !in toRemove :: tasks[id];
    }
  }

  /** Purging never drops a task that is starting or running, and never a
      finished one younger than the limit. */
  lemma PurgeKeepsLiveTasks(tasks: map<string, PoolRecord>, now: real, maxAge: real, id: string)
    requires id in tasks
    requires !Finished(tasks[id].status) || now - tasks[id].startTime <= maxAge
    ensures id in Purged(tasks, now, maxAge) && Purged(tasks, now, maxAge)[id] == tasks[id]
  {
  }
}
