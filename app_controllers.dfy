/** The deciding parts of the Streamlit application (`EmlakVideoApp`,
    its `VideoController`, `PropertyVideoWizard`) and of the separate
    video controller module: the ready-made settings templates, the
    dispatch on the background video task's status, the insertion of a
    bordered map image, the requirement check before rendering, the
    assembly of the render input and the five-step wizard. Widgets,
    reruns and drawing are left out; a session is a map from key to value,
    and which files exist is a parameter. */
module AppFlow {
  import opened Base
  import TaskTable

  /** An opaque picture (a PIL image). */
  datatype Picture = Picture(id: nat)

  /** A session value, by the shapes the application stores in it. */
  datatype Value =
    | Text(s: string)
    | Whole(n: int)
    | Decimal(x: real)
    | Pictures(items: seq<Picture>)
    | Opaque(id: nat)

  /** The shapes the code relies on when it reads a key: image lists are
      lists, the background task id is a string, the wizard step is a number. */
  predicate WellTyped(values: map<string, Value>)
  {
    ("maps_images" in values ==> values["maps_images"].Pictures?)
    && ("user_images" in values ==> values["user_images"].Pictures?)
    && ("video_task_id" in values ==> values["video_task_id"].Text?)
    && ("wizard_step" in values ==> values["wizard_step"].Whole?)
  }

  class AppSession {
    var values: map<string, Value>

    constructor(initial: map<string, Value>)
      ensures values == initial
    {
      values := initial;
    }
  }

  // ---------------------------------------------------------------- templates

  /** The settings of one template, in the dictionary's order. */
  function Settings(transition: string, fps: int, quality: string, boost: real, description: string): seq<(string, Value)>
  {
    [("transition_type", Text(transition)), ("fps", Whole(fps)), ("video_quality", Text(quality)),
     ("color_boost", Decimal(boost)), ("description", Text(description))]
  }

  /** The templates of `show_templates`; the "Özel" (custom) choice and any
      other name have none. */
  function Template(name: string): Option<seq<(string, Value)>>
  {
    if name == "Lüks Konut" then
      Some(Settings("Yakınlaşma ve Kaydırma", 30, "high", 1.8,
        "Yüksek kaliteli, akıcı geçişlerle lüks konut videoları için ideal ayarlar."))
    else if name == "Ticari Emlak" then
      Some(Settings("Kaydırma", 24, "high", 1.3,
        "Ticari mülkler için profesyonel görünümlü, yüksek kalitede sunumlar."))
    else if name == "Ekonomik Paket" then
      Some(Settings("Yakınlaşma", 24, "normal", 1.5,
        "Hızlı ve verimli oluşturma için optimize edilmiş temel ayarlar."))
    else if name == "Arsa/Arazi" then
      Some(Settings("Yakınlaşma ve Kaydırma", 30, "high", 2.0,
        "Arsa ve arazi görüntülerini vurgulamak için uyarlanmış, canlı renkli ayarlar."))
    else if name == "Deniz Manzaralı" then
      Some(Settings("Kaydırma", 30, "high", 1.7,
        "Deniz ve göl manzaralarını öne çıkaran, mavi tonları vurgulayan ayarlar."))
    else None
  }

  /** The session after the first `|items|` writes of the apply loop. */
  function Applied(values: map<string, Value>, items: seq<(string, Value)>): map<string, Value>
    decreases |items|
  {
    if items == [] then values
    else
      var m := Applied(values, items[..|items| - 1]);
      var last := items[|items| - 1];
      if last.0 != "description" then m[last.0 := last.1] else m
  }

  /** Applying a list of settings: a key other than "description" that the
      list names ends up holding the value of its last occurrence; every
      other key, "description" included, keeps its old value or stays absent. */
  /** The last write of a key other than "description" is the one that stays. */
  lemma {:induction false} AppliedLast(values: map<string, Value>, items: seq<(string, Value)>, i: nat)
    requires i < |items| && items[i].0 != "description"
    requires forall j :: i < j < |items| ==> items[j].0 != items[i].0
    ensures items[i].0 in Applied(values, items) && Applied(values, items)[items[i].0] == items[i].1
    decreases |items|
  {
    var init := items[..|items| - 1];
    if i < |items| - 1 {
      assert init[i] == items[i];
      forall j | i < j < |init|
        ensures init[j].0 != items[i].0
      {
        assert init[j] == items[j];
      }
      AppliedLast(values, init, i);
    }
  }

  /** A key the list never writes, or "description", keeps its old state. */
  lemma {:induction false} AppliedUntouched(values: map<string, Value>, items: seq<(string, Value)>, k: string)
    requires k == "description" || forall i :: 0 <= i < |items| ==> items[i].0 != k
    ensures k in Applied(values, items) <==> k in values
    ensures k in values ==> Applied(values, items)[k] == values[k]
    decreases |items|
  {
    if items != [] {
      var init := items[..|items| - 1];
      forall i | 0 <= i < |init|
        ensures init[i] == items[i]
      {
      }
      AppliedUntouched(values, init, k);
    }
  }

  /** The apply button of `show_templates`: writes every template setting
      except the description into the session. */
  method ApplyTemplate(session: AppSession, name: string)
    modifies session
    ensures Template(name).None? ==> session.values == old(session.values)
    ensures Template(name).Some? ==> session.values == Applied(old(session.values), Template(name).value)
  {
    var template := Template(name);
    if template.Some? {
      ApplySettings(session, template.value);
    }
  }

  /** The loop of the apply button: each setting but the description is
      written in order. */
  method ApplySettings(session: AppSession, items: seq<(string, Value)>)
    modifies session
    ensures session.values == Applied(old(session.values), items)
  {
    for i := 0 to |items|
      invariant session.values == Applied(old(session.values), items[..i])
    {
      assert items[..i + 1][..i] == items[..i];
      var (key, value) := items[i];
      if key != "description" {
        session.values := session.values[key := value];
      }
    }
    assert items[..|items|] == items;
  }

  /** After a template is applied the four video settings hold the
      template's values, the session's own "description" (if any) is left
      alone, and so is every other key. */
  lemma TemplateSettingsApplied(values: map<string, Value>, transition: string, fps: int, quality: string,
                                boost: real, description: string, k: string)
    ensures var after := Applied(values, Settings(transition, fps, quality, boost, description));
      "transition_type" in after && after["transition_type"] == Text(transition)
      && "fps" in after && after["fps"] == Whole(fps)
      && "video_quality" in after && after["video_quality"] == Text(quality)
      && "color_boost" in after && after["color_boost"] == Decimal(boost)
      && (k !in {"transition_type", "fps", "video_quality", "color_boost"} ==>
            (k in after <==> k in values) && (k in values ==> after[k] == values[k]))
  {
    var t := Settings(transition, fps, quality, boost, description);
    AppliedLast(values, t, 0);
    AppliedLast(values, t, 1);
    AppliedLast(values, t, 2);
    AppliedLast(values, t, 3);
    if k !in {"transition_type", "fps", "video_quality", "color_boost"} {
      assert k == "description" || forall i :: 0 <= i < |t| ==> t[i].0 != k;
      AppliedUntouched(values, t, k);
    }
  }

  // ------------------------------------------------------ background task view

  /** The statuses shown as work in progress. */
  const InProgress: seq<string> := ["starting", "running", "preparing", "processing_images", "generating_video"]

  /** The Turkish stage caption; the dictionary's default (the status itself)
      is never reached, since only statuses in progress are looked up. */
  function StageName(status: string): string
  {
    if status == "starting" then "Başlatılıyor"
    else if status == "running" then "Çalışıyor"
    else if status == "preparing" then "Hazırlanıyor"
    else if status == "processing_images" then "Görüntüler İşleniyor"
    else if status == "generating_video" then "Video Oluşturuluyor"
    else status
  }

  /** What `check_background_tasks` shows. */
  datatype TaskView =
    | NoView
    | Working(stage: string, fraction: real, percent: int, detail: Option<string>)
    | VideoReady(path: string)
    | VideoNotFound
    | RenderFailed(error: Option<string>, details: Option<string>)

  /** The view of a looked-up record and whether the session's task id is dropped. */
  datatype Shown = Shown(view: TaskView, clear: bool)

  function Decision(rec: Option<TaskTable.TaskRecord>, existing: set<string>): Shown
  {
    match rec {
      case None => Shown(NoView, false)
      case Some(r) =>
        if r.status in InProgress then
          var fraction := r.progress as real / 100.0;
          Shown(Working(StageName(r.status), fraction, Trunc(fraction * 100.0),
                        if r.message != "" then Some(r.message) else None), false)
        else if r.status == "completed" then
          if r.result.Some? && r.result.value != "" && r.result.value in existing
          then Shown(VideoReady(r.result.value), true)
          else Shown(VideoNotFound, true)
        else if r.status == "failed" then
          Shown(RenderFailed(r.error, r.errorDetails), true)
        else Shown(NoView, false)
    }
  }

  /** The record the session's task id points at, if any. */
  function Tracked(values: map<string, Value>, records: map<string, TaskTable.TaskRecord>): Option<TaskTable.TaskRecord>
    requires WellTyped(values)
  {
    if "video_task_id" in values && values["video_task_id"].s in records
    then Some(records[values["video_task_id"].s]) else None
  }

  /** `check_background_tasks`: purges records finished more than 30 minutes
      ago, then looks up the session's video task and shows it. */
  method CheckBackgroundTasks(session: AppSession, table: TaskTable.StatusTable, now: real, existing: set<string>)
    returns (view: TaskView)
    requires WellTyped(session.values)
    modifies session, table
    ensures table.records == TaskTable.Purged(old(table.records), now, 1800.0)
    ensures table.log == old(table.log)
    ensures view == Decision(Tracked(old(session.values), table.records), existing).view
    ensures session.values == if Decision(Tracked(old(session.values), table.records), existing).clear
                              then old(session.values) - {"video_task_id"} else old(session.values)
  {
    table.CleanupCompletedTasks(1800.0, now);
    view := NoView;
    if "video_task_id" in session.values {
      var taskId := session.values["video_task_id"].s;
      var status := table.GetTaskStatus(taskId);
      if status.Some? {
        var r := status.value;
        if r.status in InProgress {
          var progress := r.progress as real / 100.0;
          var detail := if r.message != "" then Some(r.message) else None;
          view := Working(StageName(r.status), progress, Trunc(progress * 100.0), detail);
        } else if r.status == "completed" {
          if r.result.Some? && r.result.value != "" && r.result.value in existing {
            view := VideoReady(r.result.value);
          } else {
            view := VideoNotFound;
          }
          session.values := session.values - {"video_task_id"};
        } else if r.status == "failed" {
          view := RenderFailed(r.error, r.errorDetails);
          session.values := session.values - {"video_task_id"};
        }
      }
    }
  }

  /** The background task id is dropped exactly when the background task is found completed or
      failed; a task in progress is shown with its stage and percentage,
      which is the stored progress; any other status (such as 'finalizing'),
      an unknown id or a purged record shows nothing and keeps the id. */
  lemma DecisionCases(rec: Option<TaskTable.TaskRecord>, existing: set<string>)
    ensures Decision(rec, existing).clear <==> rec.Some? && (rec.value.status == "completed" || rec.value.status == "failed")
    ensures Decision(rec, existing).view.Working? <==> rec.Some? && rec.value.status in InProgress
    ensures Decision(rec, existing).view.Working? ==>
              Decision(rec, existing).view.percent == rec.value.progress
              && Decision(rec, existing).view.stage != rec.value.status
              && (0 <= rec.value.progress <= 100 ==> 0.0 <= Decision(rec, existing).view.fraction <= 1.0)
    ensures Decision(rec, existing).view.VideoReady? ==>
              rec.Some? && rec.value.result == Some(Decision(rec, existing).view.path)
              && Decision(rec, existing).view.path in existing
    ensures Decision(rec, existing).view == NoView <==>
              rec.None? || (rec.value.status !in InProgress && rec.value.status != "completed" && rec.value.status != "failed")
  {
    if rec.Some? && rec.value.status in InProgress {
      var p := rec.value.progress;
      assert (p as real / 100.0) * 100.0 == p as real;
    }
  }

  /** A finished task whose record the purge removed leaves its id in the
      session for good: the check shows nothing and keeps it on every later
      call. */
  lemma PurgedTaskIdStays(values: map<string, Value>, records: map<string, TaskTable.TaskRecord>,
                          now: real, later: real, existing: set<string>)
    requires WellTyped(values) && "video_task_id" in values
    requires values["video_task_id"].s in records
    requires TaskTable.Expired(records[values["video_task_id"].s], now, 1800.0)
    ensures Tracked(values, TaskTable.Purged(records, now, 1800.0)).None?
    ensures !Decision(Tracked(values, TaskTable.Purged(records, now, 1800.0)), existing).clear
    ensures Tracked(values, TaskTable.Purged(TaskTable.Purged(records, now, 1800.0), later, 1800.0)).None?
  {
  }

  // ---------------------------------------------------------- bordered image

  /** The "include in video" choice after a border was drawn: the bordered
      image goes first in a copy of the map images. */
  method IncludeBordered(session: AppSession, bordered: Picture)
    requires "maps_images" in session.values && session.values["maps_images"].Pictures?
    modifies session
    ensures session.values == old(session.values)["maps_images" := Pictures([bordered] + old(session.values)["maps_images"].items)]
  {
    var copy := session.values["maps_images"].items;
    copy := [bordered] + copy;
    session.values := session.values["maps_images" := Pictures(copy)];
  }

  // ------------------------------------------------- requirements and input

  /** `len(maps_images) + len(user_images)`, an absent key counting 0. */
  function ImageCount(values: map<string, Value>): nat
    requires WellTyped(values)
  {
    (if "maps_images" in values then |values["maps_images"].items| else 0)
    + (if "user_images" in values then |values["user_images"].items| else 0)
  }

  /** The missing components, in the order they are checked. */
  function Missing(values: map<string, Value>): seq<string>
    requires WellTyped(values)
  {
    (if "audio_path" !in values then ["Sesli anlatım"] else [])
    + (if "maps_images" !in values && "user_images" !in values then ["Görüntüler"] else [])
    + (if ImageCount(values) == 0 then ["En az bir görüntü"] else [])
  }

  /** `_check_requirements`, in both the application and the video controller. */
  method CheckRequirements(values: map<string, Value>) returns (met: bool, missing: seq<string>)
    requires WellTyped(values)
    ensures missing == Missing(values)
    ensures met <==> missing == []
  {
    missing := [];
    if "audio_path" !in values {
      missing := missing + ["Sesli anlatım"];
    }
    if !("maps_images" in values || "user_images" in values) {
      missing := missing + ["Görüntüler"];
    }
    var count := 0;
    if "maps_images" in values {
      count := count + |values["maps_images"].items|;
    }
    if "user_images" in values {
      count := count + |values["user_images"].items|;
    }
    if count == 0 {
      missing := missing + ["En az bir görüntü"];
    }
    met := |missing| == 0;
  }

  /** The requirements are met exactly when there is an audio path and at
      least one image; missing image keys always come with a zero count, and
      no component is reported twice. */
  lemma RequirementsMet(values: map<string, Value>)
    requires WellTyped(values)
    ensures Missing(values) == [] <==> "audio_path" in values && ImageCount(values) > 0
    ensures "Görüntüler" in Missing(values) ==> "En az bir görüntü" in Missing(values)
    ensures |Missing(values)| <= 3
    ensures forall i, j :: 0 <= i < j < |Missing(values)| ==> Missing(values)[i] != Missing(values)[j]
    ensures |Missing(values)| > 0 && "audio_path" !in values ==> Missing(values)[0] == "Sesli anlatım"
  {
    var m := Missing(values);
    if "Görüntüler" in m {
      assert "Görüntüler" != "Sesli anlatım";
      assert "maps_images" !in values && "user_images" !in values;
    }
  }

  /** Python's `s[:n]`. */
  function Head<T>(s: seq<T>, n: nat): (r: seq<T>)
    ensures |r| == if |s| <= n then |s| else n
    ensures r <= s
  {
    if |s| <= n then s else s[..n]
  }

  /** The render input: at most eight map images, then at most five of the
      user's own. */
  function RenderInput(values: map<string, Value>): seq<Picture>
    requires WellTyped(values)
  {
    (if "maps_images" in values then Head(values["maps_images"].items, 8) else [])
    + (if "user_images" in values then Head(values["user_images"].items, 5) else [])
  }

  /** The extend steps of `_generate_video` (and of the preview section). */
  method AssembleImages(values: map<string, Value>) returns (all: seq<Picture>)
    requires WellTyped(values)
    ensures all == RenderInput(values)
  {
    all := [];
    if "maps_images" in values {
      var maps := values["maps_images"].items;
      all := all + (if |maps| <= 8 then maps else maps[..8]);
    }
    if "user_images" in values {
      var users := values["user_images"].items;
      all := all + (if |users| <= 5 then users else users[..5]);
    }
  }

  /** The render input holds at most 13 images, map images first and in
      order, each part a prefix of its list; it is empty exactly when the
      image count is zero, that is, when the requirement check reports
      "En az bir görüntü". */
  lemma RenderInputShape(values: map<string, Value>)
    requires WellTyped(values)
    ensures |RenderInput(values)| <= 13
    ensures "maps_images" in values ==>
              var k := if |values["maps_images"].items| <= 8 then |values["maps_images"].items| else 8;
              RenderInput(values)[..k] == values["maps_images"].items[..k]
    ensures "user_images" in values && "maps_images" !in values ==>
              RenderInput(values) <= values["user_images"].items
    ensures RenderInput(values) == [] <==> ImageCount(values) == 0
    ensures RenderInput(values) == [] <==> "En az bir görüntü" in Missing(values)
  {
    var m := Missing(values);
    if "En az bir görüntü" in m {
      assert "En az bir görüntü" != "Sesli anlatım" && "En az bir görüntü" != "Görüntüler";
    }
  }

  /** Including a bordered image puts it at the head of the render input. */
  lemma BorderedLeadsRender(values: map<string, Value>, bordered: Picture)
    requires WellTyped(values) && "maps_images" in values
    ensures var after := values["maps_images" := Pictures([bordered] + values["maps_images"].items)];
      WellTyped(after) && RenderInput(after)[0] == bordered && ImageCount(after) == ImageCount(values) + 1
  {
  }

  /** The arguments handed to the background render. */
  datatype RenderJob = RenderJob(images: seq<Picture>, audio: Value, transition: Value, fps: Value,
                                 quality: Value, timeout: int)

  /** How `_generate_video` ended: no images (an error and no task), an
      exception on the way to the background task (caught, the old task id dropped),
      or a task submitted. */
  datatype Submission = NoImages | Raised | Submitted(job: RenderJob)

  predicate SettingsPresent(values: map<string, Value>)
  {
    "audio_path" in values && "transition_type" in values && "fps" in values && "video_quality" in values
  }

  /** The application's `_generate_video` as written: its `start_task` call
      passes `timeout=180`, a keyword the module-global manager's
      `start_task` does not take. Once there are images the call therefore
      raises (a KeyError first when a setting is missing, a TypeError
      otherwise), the handler drops the background task id, and no task is registered. */
  function GenerateVideoAsWritten(values: map<string, Value>): (r: (Submission, map<string, Value>))
    requires WellTyped(values)
    ensures !r.0.Submitted? && r.1.Keys <= values.Keys
    ensures r.0 == NoImages <==> ImageCount(values) == 0
  {
    RenderInputShape(values);
    if RenderInput(values) == [] then (NoImages, values)
    else (Raised, values - {"video_task_id"})
  }

  /** A session ready to render: the narration, the three settings and one
      map picture. */
  const ReadySession: map<string, Value> :=
    map["audio_path" := Text("voice.mp3"), "transition_type" := Text("Kaydırma"), "fps" := Whole(24),
        "video_quality" := Text("normal"), "maps_images" := Pictures([Picture(0)])]

  /** On a session `GenerateVideo` submits a task for, the code as written
      submits nothing and leaves no task id behind. */
  lemma ReadySessionNeverStarts()
    ensures WellTyped(ReadySession) && SettingsPresent(ReadySession) && RenderInput(ReadySession) != []
    ensures GenerateVideoAsWritten(ReadySession).0 == Raised
    ensures "video_task_id" !in GenerateVideoAsWritten(ReadySession).1
  {
    assert ImageCount(ReadySession) == 1;
    RenderInputShape(ReadySession);
  }

  /** `_generate_video` with the background task started as intended: the background task arguments are read from the session
      (never from the widgets of the settings page); the background task gets the
      given id and the name "video_generation", and its id is stored. The
      application passes a timeout of 180 seconds, the video controller one
      of 1800. */
  method GenerateVideo(session: AppSession, table: TaskTable.StatusTable, id: string, now: real, timeout: int)
    returns (outcome: Submission)
    requires WellTyped(session.values)
    modifies session, table
    ensures RenderInput(old(session.values)) == [] ==>
              outcome == NoImages && session.values == old(session.values)
              && table.records == old(table.records) && table.log == old(table.log)
    ensures RenderInput(old(session.values)) != [] && !SettingsPresent(old(session.values)) ==>
              outcome == Raised && session.values == old(session.values) - {"video_task_id"}
              && table.records == old(table.records) && table.log == old(table.log)
    ensures RenderInput(old(session.values)) != [] && SettingsPresent(old(session.values)) ==>
              var v := old(session.values);
              outcome == Submitted(RenderJob(RenderInput(v), v["audio_path"], v["transition_type"], v["fps"],
                                             v["video_quality"], timeout))
              && session.values == v["video_task_id" := Text(id)]
              && table.records == old(table.records)[id := TaskTable.Initial(Some("video_generation"), now)]
              && table.log == old(table.log) + [(id, "starting", 0)]
  {
    var all := AssembleImages(session.values);
    if all == [] {
      return NoImages;
    }
    if !SettingsPresent(session.values) {
      session.values := session.values - {"video_task_id"};
      return Raised;
    }
    var v := session.values;
    var job := RenderJob(all, v["audio_path"], v["transition_type"], v["fps"], v["video_quality"], timeout);
    var taskId := table.StartTask(id, Some("video_generation"), now);
    session.values := session.values["video_task_id" := Text(taskId)];
    outcome := Submitted(job);
  }

  // ------------------------------------------------------------------ wizard

  /** The wizard has five steps: address, details, audio, images, video. */
  const WizardSteps := 5

  /** `st.session_state.get("wizard_step", 0)`. */
  function StoredStep(values: map<string, Value>): int
    requires WellTyped(values)
  {
    if "wizard_step" in values then values["wizard_step"].n else 0
  }

  /** `validate_step`. */
  predicate WizardStepValid(step: int, values: map<string, Value>)
  {
    if step == 0 then "property_location" in values
    else if step == 1 then "property_text" in values
    else if step == 2 then "audio_path" in values
    else if step == 3 then "maps_images" in values || "user_images" in values
    else true
  }

  /** The progress bar of `show`. */
  function WizardProgress(step: int): real
  {
    step as real / (WizardSteps - 1) as real
  }

  datatype Nav = Stay | Back | Forward

  /** The stored step after one run of `show` in which `b` was pressed. */
  function WizardStepAfter(step: int, b: Nav, values: map<string, Value>): int
  {
    match b
    case Stay => step
    case Back => if step > 0 then step - 1 else step
    case Forward => if step < WizardSteps - 1 && WizardStepValid(step, values) then step + 1 else step
  }

  class PropertyVideoWizard {
    const session: AppSession
    const step: int

    constructor(session: AppSession)
      requires WellTyped(session.values)
      ensures this.session == session && step == StoredStep(session.values)
    {
      this.session := session;
      step := if "wizard_step" in session.values then session.values["wizard_step"].n else 0;
    }

    /** The navigation buttons of `show`: Back exists only after the first
        step and Forward only before the last, and Forward writes only
        when the step validates. */
    method Press(b: Nav)
      modifies session
      ensures (b == Back && step > 0) || (b == Forward && step < WizardSteps - 1 && WizardStepValid(step, old(session.values)))
              ==> session.values == old(session.values)["wizard_step" := Whole(WizardStepAfter(step, b, old(session.values)))]
      ensures !((b == Back && step > 0) || (b == Forward && step < WizardSteps - 1 && WizardStepValid(step, old(session.values))))
              ==> session.values == old(session.values)
    {
      match b {
        case Stay =>
        case Back =>
          if step > 0 {
            session.values := session.values["wizard_step" := Whole(step - 1)];
          }
        case Forward =>
          if step < WizardSteps - 1 {
            if WizardStepValid(step, session.values) {
              session.values := session.values["wizard_step" := Whole(step + 1)];
            }
          }
      }
    }
  }

  /** The stored step after a sequence of runs with the session's other
      keys fixed. */
  function WizardRun(step: int, presses: seq<Nav>, values: map<string, Value>): (r: int)
    requires 0 <= step < WizardSteps
    ensures 0 <= r < WizardSteps
    decreases |presses|
  {
    if presses == [] then step
    else WizardRun(WizardStepAfter(step, presses[0], values), presses[1..], values)
  }

  /** The per-step rules of `validate_step`, the progress bounds, and that
      Forward moves exactly when the step validates. */
  lemma WizardRules(step: int, values: map<string, Value>)
    requires 0 <= step < WizardSteps
    ensures WizardStepValid(0, values) <==> "property_location" in values
    ensures WizardStepValid(3, values) <==> "maps_images" in values || "user_images" in values
    ensures WizardStepValid(4, values)
    ensures 0.0 <= WizardProgress(step) <= 1.0
    ensures WizardProgress(step) == 1.0 <==> step == WizardSteps - 1
    ensures step < WizardSteps - 1 ==> (WizardStepAfter(step, Forward, values) == step + 1 <==> WizardStepValid(step, values))
    ensures step > 0 ==> WizardStepAfter(step, Back, values) == step - 1
  {
  }

  /** Without the address no sequence of presses leaves the first step. */
  lemma {:induction false} NoAddressNoProgress(presses: seq<Nav>, values: map<string, Value>)
    requires "property_location" !in values
    ensures WizardRun(0, presses, values) == 0
    decreases |presses|
  {
    if presses != [] {
      assert WizardStepAfter(0, presses[0], values) == 0;
      NoAddressNoProgress(presses[1..], values);
    }
  }
}
