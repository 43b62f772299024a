/** The module-global status table of `BackgroundTaskManager`: one record
    per task id, created as 'starting', moved to 'running' and then to
    'completed' or 'failed' by the background task runner, patched by the background task itself,
    and purged when finished and old. Threads and the lock are replaced by
    a sequential order of calls; time is a parameter. Every manager
    instance is stateless and works on the one shared table, so the table
    is the object here and the manager's methods take it as an argument. */
module TaskTable {
  import opened Base

  /** One task record. `errorDetails` is None both when the key is absent
      (a fresh record has no such key) and when it was set to None. */
  datatype TaskRecord = TaskRecord(
    status: string,
    progress: int,
    result: Option<string>,
    error: Option<string>,
    errorDetails: Option<string>,
    startedAt: real,
    completedAt: Option<real>,
    name: Option<string>,
    message: string)

  /** The keyword arguments of one `update_task_status` call: None means
      the key was not passed. */
  datatype Patch = Patch(
    status: Option<string>,
    progress: Option<int>,
    message: Option<string>,
    error: Option<string>,
    errorDetails: Option<string>)

  /** How the background task's function ended: its return value or the text of its exception. */
  datatype Outcome = Returned(value: string) | Raised(message: string)

  function Pick<T>(given: Option<T>, current: T): T
  {
    if given.Some? then given.value else current
  }

  /** Overwrites exactly the keys given in the patch. */
  function Apply(r: TaskRecord, p: Patch): (r': TaskRecord)
    ensures r'.status == Pick(p.status, r.status)
    ensures r'.progress == Pick(p.progress, r.progress)
    ensures r'.message == Pick(p.message, r.message)
    ensures r'.error == (if p.error.Some? then p.error else r.error)
    ensures r'.errorDetails == (if p.errorDetails.Some? then p.errorDetails else r.errorDetails)
    ensures r'.result == r.result && r'.startedAt == r.startedAt
    ensures r'.completedAt == r.completedAt && r'.name == r.name
  {
    r.(status := Pick(p.status, r.status),
       progress := Pick(p.progress, r.progress),
       message := Pick(p.message, r.message),
       error := if p.error.Some? then p.error else r.error,
       errorDetails := if p.errorDetails.Some? then p.errorDetails else r.errorDetails)
  }

  /** The record `start_task` creates. */
  function Initial(name: Option<string>, now: real): TaskRecord
  {
    TaskRecord("starting", 0, None, None, None, now, None, name, "Görev başlatılıyor...")
  }

  /** The record after a successful run: the function's value, progress 100
      and a completion time; the error fields are kept. */
  function Completed(r: TaskRecord, value: string, now: real): TaskRecord
  {
    r.(status := "completed", result := Some(value), progress := 100,
       completedAt := Some(now), message := "Görev tamamlandı!")
  }

  /** The record after a failed run: the error text and details and a
      completion time; the result is kept. */
  function Failed(r: TaskRecord, error: string, details: string, now: real): TaskRecord
  {
    r.(status := "failed", error := Some(error), errorDetails := Some(details),
       completedAt := Some(now), message := "Hata: " + error)
  }

  /** The purge condition of `cleanup_completed_tasks`. A completion time of
      0.0 is falsy in Python, so such a record is never purged. */
  predicate Expired(r: TaskRecord, now: real, maxAge: real)
  {
    (r.status == "completed" || r.status == "failed")
    && r.completedAt.Some? && r.completedAt.value != 0.0
    && now - r.completedAt.value > maxAge
  }

  function Purged(records: map<string, TaskRecord>, now: real, maxAge: real): (m: map<string, TaskRecord>)
    ensures forall id :: id in m <==> id in records && !Expired(records[id], now, maxAge)
    ensures forall id :: id in m ==> m[id] == records[id]
  {
    map id | id in records && !Expired(records[id], now, maxAge) :: records[id]
  }

  /** Patching only adds the given keys: a patch without a status or a
      progress leaves them, and applying the same patch twice is applying it once. */
  lemma ApplyIdempotent(r: TaskRecord, p: Patch)
    ensures Apply(Apply(r, p), p) == Apply(r, p)
  {
  }

  /** A record in progress, or finished without a usable completion time,
      survives every purge; purging twice is purging once. */
  lemma PurgeProperties(records: map<string, TaskRecord>, now: real, maxAge: real)
    ensures forall id :: (id in records && records[id].status != "completed" && records[id].status != "failed")
                         ==> id in Purged(records, now, maxAge)
    ensures forall id :: (id in records && (records[id].completedAt.None? || records[id].completedAt == Some(0.0)))
                         ==> id in Purged(records, now, maxAge)
    ensures Purged(Purged(records, now, maxAge), now, maxAge) == Purged(records, now, maxAge)
  {
  }

  /** The shared `_task_status` dictionary. `log` is a record of every status
      written, as (id, status, progress) after the write. */
  class StatusTable {
    var records: map<string, TaskRecord>
    ghost var log: seq<(string, string, int)>

    constructor()
      ensures records == map[] && log == []
    {
      records := map[];
      log := [];
    }

    /** `start_task`: registers the record under the (uuid) id and returns it. */
    method StartTask(id: string, name: Option<string>, now: real) returns (taskId: string)
      modifies this
      ensures taskId == id
      ensures records == old(records)[id := Initial(name, now)]
      ensures log == old(log) + [(id, "starting", 0)]
    {
      records := records[id := Initial(name, now)];
      log := log + [(id, "starting", 0)];
      taskId := id;
    }

    /** `get_task_status`: None for an unknown id. */
    method GetTaskStatus(id: string) returns (r: Option<TaskRecord>)
      ensures id in records ==> r == Some(records[id])
      ensures id !in records ==> r.None?
    {
      if id in records {
        r := Some(records[id]);
      } else {
        r := None;
      }
    }

    /** `update_task_status`: patches an existing record; an unknown id is a no-op. */
    method UpdateTaskStatus(id: string, p: Patch)
      modifies this
      ensures id in old(records) ==>
        records == old(records)[id := Apply(old(records)[id], p)]
        && log == old(log) + [(id, records[id].status, records[id].progress)]
      ensures id !in old(records) ==> records == old(records) && log == old(log)
    {
      if id in records {
        var r := Apply(records[id], p);
        records := records[id := r];
        log := log + [(id, r.status, r.progress)];
      }
    }

    /** The completion and failure steps of `_run_task`. They index the table
        without a presence check: for a purged id the KeyError escapes the
        thread and nothing is written. */
    method Finish(id: string, outcome: Outcome, details: string, now: real)
      modifies this
      ensures id in old(records) && outcome.Returned? ==>
        records == old(records)[id := Completed(old(records)[id], outcome.value, now)]
        && log == old(log) + [(id, "completed", 100)]
      ensures id in old(records) && outcome.Raised? ==>
        records == old(records)[id := Failed(old(records)[id], outcome.message, details, now)]
        && log == old(log) + [(id, "failed", records[id].progress)]
      ensures id !in old(records) ==> records == old(records) && log == old(log)
    {
      if id in records {
        match outcome {
          case Returned(value) =>
            records := records[id := Completed(records[id], value, now)];
            log := log + [(id, "completed", 100)];
          case Raised(message) =>
            var r := Failed(records[id], message, details, now);
            records := records[id := r];
            log := log + [(id, "failed", r.progress)];
        }
      }
    }

    /** `_run_task` for a function that does not touch the table itself:
        'running' at 5%, then completion or failure. */
    method RunTask(id: string, outcome: Outcome, details: string, now: real)
      modifies this
      ensures id in old(records) ==>
        var running := Apply(old(records)[id], Patch(Some("running"), Some(5), Some("Görev çalışıyor..."), None, None));
        records == old(records)[id := match outcome
          case Returned(v) => Completed(running, v, now)
          case Raised(e) => Failed(running, e, details, now)]
      ensures id !in old(records) ==> records == old(records) && log == old(log)
    {
      UpdateTaskStatus(id, Patch(Some("running"), Some(5), Some("Görev çalışıyor..."), None, None));
      Finish(id, outcome, details, now);
    }

    /** `cleanup_completed_tasks`: walks a snapshot of the ids and deletes
        every expired record. */
    method CleanupCompletedTasks(maxAge: real, now: real)
      modifies this
      ensures records == Purged(old(records), now, maxAge)
      ensures log == old(log)
    {
      var ids := records.Keys;
      ghost var start := records;
      while ids != {}
        invariant ids <= start.Keys
        invariant forall id :: id in records <==> id in start && (id in ids || !Expired(start[id], now, maxAge))
        invariant forall id :: id in records ==> records[id] == start[id]
        invariant log == old(log)
        decreases ids
      {
        var id :| id in ids;
        if Expired(records[id], now, maxAge) {
          records := map k | k in records && k != id :: records[k];
        }
        ids := ids - {id};
      }
    }
  }

  /** The statuses and progress values `generate_video_in_background` writes
      before the video call. */
  function PreparationPatches(imageCount: nat): seq<Patch>
  {
    [Patch(Some("preparing"), Some(10), Some("Video oluşturma hazırlıkları yapılıyor..."), None, None),
     Patch(Some("processing_images"), Some(20), Some(IntToString(imageCount) + " görüntü işleniyor..."), None, None),
     Patch(Some("generating_video"), Some(40), Some("Video oluşturuluyor, lütfen bekleyin..."), None, None)]
  }

  /** A record after the three preparation updates. */
  function Prepared(r: TaskRecord): TaskRecord
  {
    r.(status := "generating_video", progress := 40, message := "Video oluşturuluyor, lütfen bekleyin...")
  }

  /** The three preparation patches leave the record at 'generating_video',
      40%, with the last of their messages. */
  lemma PreparedRecord(r: TaskRecord, imageCount: nat)
    ensures var p := PreparationPatches(imageCount);
      Apply(Apply(Apply(r, p[0]), p[1]), p[2]) == Prepared(r)
  {
  }

  /** `generate_video_in_background`: three preparation updates, the render,
      then 'finalizing' at 95% and the path; a failed render marks the background task
      'failed' and re-raises. */
  method GenerateVideoInBackground(table: StatusTable, id: string, imageCount: nat,
                                   render: Outcome, details: string)
    returns (out: Outcome)
    modifies table
    ensures out == render
    ensures id in old(table.records) && render.Returned? ==>
      table.records == old(table.records)[id := old(table.records)[id].(
        status := "finalizing", progress := 95, message := "Video tamamlanıyor...")]
      && table.log == old(table.log) + [(id, "preparing", 10), (id, "processing_images", 20),
           (id, "generating_video", 40), (id, "finalizing", 95)]
    ensures id in old(table.records) && render.Raised? ==>
      table.records == old(table.records)[id := old(table.records)[id].(
        status := "failed", progress := 40, message := "Video oluşturuluyor, lütfen bekleyin...",
        error := Some(render.message), errorDetails := Some(details))]
      && table.log == old(table.log) + [(id, "preparing", 10), (id, "processing_images", 20),
           (id, "generating_video", 40), (id, "failed", 40)]
    ensures id !in old(table.records) ==> table.records == old(table.records) && table.log == old(table.log)
  {
    var patches := PreparationPatches(imageCount);
    table.UpdateTaskStatus(id, patches[0]);
    table.UpdateTaskStatus(id, patches[1]);
    table.UpdateTaskStatus(id, patches[2]);
    if id in old(table.records) {
      PreparedRecord(old(table.records)[id], imageCount);
      assert table.records == old(table.records)[id := Prepared(old(table.records)[id])];
    }
    match render {
      case Returned(path) =>
        table.UpdateTaskStatus(id, Patch(Some("finalizing"), Some(95), Some("Video tamamlanıyor..."), None, None));
      case Raised(e) =>
        table.UpdateTaskStatus(id, Patch(Some("failed"), None, None, Some(e), Some(details)));
    }
    out := render;
  }

  /** A video task from `start_task` to the end of `_run_task`. */
  method RunVideoTask(table: StatusTable, id: string, name: Option<string>, imageCount: nat,
                      render: Outcome, details: string, started: real, finished: real)
    modifies table
    ensures render.Returned? ==>
      table.records == old(table.records)[id := TaskRecord("completed", 100, Some(render.value), None, None,
        started, Some(finished), name, "Görev tamamlandı!")]
    ensures render.Raised? ==>
      table.records == old(table.records)[id := TaskRecord("failed", 40, None, Some(render.message), Some(details),
        started, Some(finished), name, "Hata: " + render.message)]
    ensures table.log == old(table.log) + VideoTaskLog(id, render)
  {
    var taskId := table.StartTask(id, name, started);
    ghost var base := old(table.records);
    ghost var running := TaskRecord("running", 5, None, None, None, started, None, name, "Görev çalışıyor...");
    table.UpdateTaskStatus(id, Patch(Some("running"), Some(5), Some("Görev çalışıyor..."), None, None));
    assert table.records == base[id := running];
    var out := GenerateVideoInBackground(table, id, imageCount, render, details);
    assert id in table.records;
    table.Finish(id, out, details, finished);
  }

  /** The statuses a video task passes through. */
  function VideoTaskLog(id: string, render: Outcome): seq<(string, string, int)>
  {
    [(id, "starting", 0), (id, "running", 5), (id, "preparing", 10), (id, "processing_images", 20),
     (id, "generating_video", 40)]
    + match render
      case Returned(_) => [(id, "finalizing", 95), (id, "completed", 100)]
      case Raised(_) => [(id, "failed", 40), (id, "failed", 40)]
  }

  /** Along a video task, progress never goes down, and the background task ends in
      'completed' at 100 or in 'failed' (written twice: once by the background task,
      once by the runner). */
  lemma VideoTaskProgressMonotone(id: string, render: Outcome)
    ensures var l := VideoTaskLog(id, render);
      forall i, j :: 0 <= i < j < |l| ==> l[i].2 <= l[j].2
    ensures var l := VideoTaskLog(id, render);
      render.Returned? ==> l[|l| - 1] == (id, "completed", 100)
    ensures var l := VideoTaskLog(id, render);
      render.Raised? ==> l[|l| - 2].1 == "failed" && l[|l| - 1].1 == "failed"
  {
  }
}
