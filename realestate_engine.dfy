/** The real-estate engine of the short-video generator: a content engine
    whose six steps prepare a property script, narrate it, time captions,
    lay the property pictures out over the narration, gather background
    assets and render. Its own steps are modelled: the script placeholder,
    the picture time slots written into the content database, the editing
    plan each template selects, and the test run. The inherited steps and
    the base engine's progress reporting are not part of this model. */
module RealEstateEngine {
  import opened Base

  /** A property picture: a loaded image, or already a path. `jpeg` says
      whether PIL can write the picture as JPEG (a palette or RGBA picture
      cannot, and `img.save` then raises OSError). */
  datatype ImageRef = Loaded(id: nat, jpeg: bool) | PathRef(path: string)

  /** What `property_data` holds that the engine reads. */
  datatype PropertyData = PropertyData(propertyType: Option<string>, images: Option<seq<ImageRef>>)

  /** The values the engine stores in `content_db_dict`. */
  datatype DbValue =
    | Text(text: string)
    | Number(x: real)
    | ImageEntry(path: ImageRef, startTime: real, endTime: real)

  /** The failures the imagery step can raise: a stored duration that is
      not a number, and a picture `img.save` cannot write. */
  datatype EngineError = TypeError | SaveError

  datatype Step = PrepareScript | GenerateTempAudio | TimeCaptions | PrepareImagery | PrepareBackgroundAssets | EditAndRender

  /** `stepDict`: the six steps in the order the engine runs them. */
  const StepDict: map<int, Step> := map[
    1 := PrepareScript, 2 := GenerateTempAudio, 3 := TimeCaptions,
    4 := PrepareImagery, 5 := PrepareBackgroundAssets, 6 := EditAndRender]

  /** The content-database key of picture `i`. */
  function ImageKey(i: int): (k: string)
    ensures |k| > 6 && k[..6] == "image_"
  {
    "image_" + IntToString(i)
  }

  /** Distinct pictures have distinct keys, none of them the script's or the duration's. */
  lemma ImageKeyDistinct(i: int, j: int)
    ensures ImageKey(i) == ImageKey(j) ==> i == j
    ensures ImageKey(i) != "script" && ImageKey(i) != "voiceover_duration"
  {
    if ImageKey(i) == ImageKey(j) {
      assert ImageKey(i)[6..] == IntToString(i);
      assert ImageKey(j)[6..] == IntToString(j);
      IntToStringInjective(i, j);
    }
    assert ImageKey(i)[0] == 'i';
  }

  /** The narration length the pictures share: `voiceover_duration`, 30 by default. */
  function TotalDuration(db: map<string, DbValue>): Result<real, EngineError>
  {
    if "voiceover_duration" !in db then Ok(30.0)
    else match db["voiceover_duration"]
      case Number(x) => Ok(x)
      case _ => Err(TypeError)
  }

  /** Picture `i` of `n` over `total` seconds: `[i * total / n, (i + 1) * total / n]`. */
  function Slot(total: real, n: nat, i: nat): (real, real)
    requires n > 0
  {
    (i as real * (total / n as real), (i + 1) as real * (total / n as real))
  }

  /** The slots tile the narration: the first starts at 0, each ends where
      the next starts, the last ends at the total, and all have one length. */
  lemma SlotsTile(total: real, n: nat)
    requires n > 0
    ensures Slot(total, n, 0).0 == 0.0
    ensures Slot(total, n, n - 1).1 == total
    ensures forall i :: 0 <= i < n - 1 ==> Slot(total, n, i).1 == Slot(total, n, i + 1).0
    ensures forall i :: 0 <= i < n ==> Slot(total, n, i).1 - Slot(total, n, i).0 == total / n as real
  {
    var q := total / n as real;
    assert n as real * q == total;
    forall i | 0 <= i < n
      ensures Slot(total, n, i).1 - Slot(total, n, i).0 == q
    {
      assert (i + 1) as real * q == i as real * q + q;
    }
  }

  /** The directory entries after the pictures `images[..count]` were saved. */
  function SavedEntries(db: map<string, DbValue>, tempDir: string, images: seq<ImageRef>, total: real, count: nat): map<string, DbValue>
    requires count <= |images|
  {
    if count == 0 then db
    else
      var i := count - 1;
      SavedEntries(db, tempDir, images, total, i)[ImageKey(i) := Entry(tempDir, images, total, i)]
  }

  /** The entry stored for picture `i`: its saved path and its slot. */
  function Entry(tempDir: string, images: seq<ImageRef>, total: real, i: nat): DbValue
    requires i < |images|
  {
    ImageEntry(SavedPath(tempDir, images[i], i), Slot(total, |images|, i).0, Slot(total, |images|, i).1)
  }

  /** Where `_save_image_to_temp` leaves picture `i`: a loaded image is
      written to the temporary directory, a path is returned unchanged. */
  function SavedPath(tempDir: string, image: ImageRef, i: int): (r: ImageRef)
    ensures image.PathRef? ==> r == image
    ensures image.Loaded? ==> r == PathRef(tempDir + "/property_img_" + IntToString(i) + ".jpg")
  {
    match image
    case Loaded(_, _) => PathRef(tempDir + "/property_img_" + IntToString(i) + ".jpg")
    case PathRef(_) => image
  }

  /** After saving, picture `i` is found under its key with its slot, and
      every other key keeps its value. */
  lemma {:induction false} SavedEntriesFacts(db: map<string, DbValue>, tempDir: string, images: seq<ImageRef>, total: real, count: nat)
    requires 0 < |images| && count <= |images|
    ensures var r := SavedEntries(db, tempDir, images, total, count);
      (forall i :: 0 <= i < count ==>
         ImageKey(i) in r
         && r[ImageKey(i)] == ImageEntry(SavedPath(tempDir, images[i], i), Slot(total, |images|, i).0, Slot(total, |images|, i).1))
      && (forall k :: k in db && (forall i :: 0 <= i < count ==> k != ImageKey(i)) ==> k in r && r[k] == db[k])
      && (forall k :: k in r ==> k in db || exists i :: 0 <= i < count && k == ImageKey(i))
  {
    SavedEntriesHold(db, tempDir, images, total, count);
    SavedEntriesKeep(db, tempDir, images, total, count);
    SavedEntriesOnly(db, tempDir, images, total, count);
  }

  lemma {:induction false} SavedEntriesHold(db: map<string, DbValue>, tempDir: string, images: seq<ImageRef>, total: real, count: nat)
    requires 0 < |images| && count <= |images|
    ensures var r := SavedEntries(db, tempDir, images, total, count);
      forall i :: 0 <= i < count ==> ImageKey(i) in r && r[ImageKey(i)] == Entry(tempDir, images, total, i)
  {
    if count > 0 {
      var j := count - 1;
      SavedEntriesHold(db, tempDir, images, total, j);
      var prev, r := SavedEntries(db, tempDir, images, total, j), SavedEntries(db, tempDir, images, total, count);
      assert r == prev[ImageKey(j) := Entry(tempDir, images, total, j)];
      forall i | 0 <= i < count
        ensures ImageKey(i) in r && r[ImageKey(i)] == Entry(tempDir, images, total, i)
      {
        if i < j {
          ImageKeyDistinct(i, j);
          assert ImageKey(i) in prev && prev[ImageKey(i)] == Entry(tempDir, images, total, i);
        }
      }
    }
  }

  lemma {:induction false} SavedEntriesKeep(db: map<string, DbValue>, tempDir: string, images: seq<ImageRef>, total: real, count: nat)
    requires 0 < |images| && count <= |images|
    ensures var r := SavedEntries(db, tempDir, images, total, count);
      forall k :: k in db && (forall i :: 0 <= i < count ==> k != ImageKey(i)) ==> k in r && r[k] == db[k]
  {
    if count > 0 {
      SavedEntriesKeep(db, tempDir, images, total, count - 1);
    }
  }

  lemma {:induction false} SavedEntriesOnly(db: map<string, DbValue>, tempDir: string, images: seq<ImageRef>, total: real, count: nat)
    requires 0 < |images| && count <= |images|
    ensures var r := SavedEntries(db, tempDir, images, total, count);
      forall k :: k in r ==> k in db || exists i :: 0 <= i < count && k == ImageKey(i)
  {
    if count > 0 {
      SavedEntriesOnly(db, tempDir, images, total, count - 1);
    }
  }

  /** The picture makes `_save_image_to_temp` raise. */
  predicate SaveFails(image: ImageRef)
  {
    image.Loaded? && !image.jpeg
  }

  /** How many pictures are saved before the first one that cannot be:
      all of them when none fails. */
  function SavedCount(images: seq<ImageRef>): (k: nat)
    ensures k <= |images|
    ensures forall i :: 0 <= i < k ==> !SaveFails(images[i])
    ensures k < |images| ==> SaveFails(images[k])
  {
    if images == [] || SaveFails(images[0]) then 0
    else 1 + SavedCount(images[1..])
  }

  /** The loop of `_prepare_property_imagery`: picture `i` is saved and its
      path and slot are written under `image_i`, in order, until a save
      raises; the entries written before it stay. */
  method WriteImageEntries(db: map<string, DbValue>, tempDir: string, images: seq<ImageRef>, total: real)
    returns (r: map<string, DbValue>, failed: bool)
    requires |images| > 0
    ensures failed <==> SavedCount(images) < |images|
    ensures r == SavedEntries(db, tempDir, images, total, SavedCount(images))
  {
    var n := |images|;
    r := db;
    var i := 0;
    while i < n
      invariant 0 <= i <= n
      invariant forall k :: 0 <= k < i ==> !SaveFails(images[k])
      invariant r == SavedEntries(db, tempDir, images, total, i)
    {
      if images[i].Loaded? && !images[i].jpeg {
        return r, true;
      }
      var slot := Slot(total, n, i);
      var entry := ImageEntry(SavedPath(tempDir, images[i], i), slot.0, slot.1);
      assert entry == Entry(tempDir, images, total, i);
      r := r[ImageKey(i) := entry];
      i := i + 1;
    }
    return r, false;
  }

  datatype EditStep =
    | AddBackgroundMusic(music: string)
    | AddVoiceover
    | ShowPropertyImages(transition: string)
    | AddDataOverlays
    | AddCaptions(style: string)

  /** The editing plan `_edit_and_render_video` picks for a template. */
  function EditingPlan(template: string): seq<EditStep>
  {
    if template == "luxury_residence" then
      [AddBackgroundMusic("elegant"), AddVoiceover, ShowPropertyImages("fade"), AddCaptions("elegant")]
    else if template == "commercial_property" then
      [AddBackgroundMusic("corporate"), AddVoiceover, ShowPropertyImages("slide"), AddDataOverlays, AddCaptions("professional")]
    else
      [AddBackgroundMusic("standard"), AddVoiceover, ShowPropertyImages("zoom"), AddCaptions("standard")]
  }

  /** Every plan opens with music and then the narration, shows the
      pictures with the template's transition and ends with captions; only
      the commercial plan adds data overlays. */
  lemma PlanShape(template: string)
    ensures var plan := EditingPlan(template);
      |plan| >= 4 && plan[0].AddBackgroundMusic? && plan[1] == AddVoiceover && plan[2].ShowPropertyImages?
      && plan[|plan| - 1].AddCaptions?
      && plan[2].transition == (if template == "luxury_residence" then "fade"
                                else if template == "commercial_property" then "slide" else "zoom")
      && (|plan| == 5 <==> template == "commercial_property")
      && (AddDataOverlays in plan <==> template == "commercial_property")
  {
  }

  /** What `test_run` reports. */
  datatype TestResults = TestResults(script: Option<string>, imageCount: Option<nat>, status: string, error: Option<EngineError>)

  class RealEstateVideoEngine {
    const propertyData: PropertyData
    const template: string
    const tempDir: string
    var script: string
    var realEstateImages: seq<ImageRef>
    var contentDb: map<string, DbValue>
    var videoPath: Option<string>

    /** `tempDir` is the directory `mkdtemp` made; `db` the base engine's database. */
    constructor(data: PropertyData, script0: string, template0: string, dir: string, db: map<string, DbValue>)
      ensures propertyData == data && script == script0 && template == template0 && tempDir == dir
      ensures realEstateImages == [] && contentDb == db && videoPath == None
    {
      propertyData := data;
      template := template0;
      script := script0;
      realEstateImages := [];
      tempDir := dir;
      contentDb := db;
      videoPath := None;
    }

    function PropertyType(): string
      reads this
    {
      if propertyData.propertyType.Some? then propertyData.propertyType.value else "property"
    }

    /** `_prepare_property_script`: an empty script becomes the welcome
      placeholder, a given one is kept; either way it is stored and returned. */
    method PrepareScript() returns (s: string)
      modifies this
      ensures old(script) != "" ==> script == old(script)
      ensures old(script) == "" ==> script == "Welcome to this amazing " + PropertyType() + "."
      ensures s == script && contentDb == old(contentDb)["script" := Text(script)]
      ensures realEstateImages == old(realEstateImages) && videoPath == old(videoPath)
    {
      if script == "" {
        script := "Welcome to this amazing " + PropertyType() + ".";
      }
      contentDb := contentDb["script" := Text(script)];
      return script;
    }

    /** `_prepare_property_imagery`: takes the property's pictures when it
      has any, then writes each picture's saved path and time slot under
      `image_i`; nothing is written for no pictures, and with pictures a
      duration that is not a number raises (in the slot division) before
      anything is written, and a picture that cannot be saved raises with
      the entries of the pictures before it written. */
    method PrepareImagery() returns (r: Result<string, EngineError>)
      modifies this
      ensures realEstateImages == (if propertyData.images.Some? then propertyData.images.value else old(realEstateImages))
      ensures |realEstateImages| > 0 && TotalDuration(old(contentDb)).Err? ==>
        r == Err(TypeError) && contentDb == old(contentDb)
      ensures |realEstateImages| > 0 && TotalDuration(old(contentDb)).Ok? && SavedCount(realEstateImages) < |realEstateImages| ==>
        r == Err(SaveError)
      ensures |realEstateImages| == 0 || (TotalDuration(old(contentDb)).Ok? && SavedCount(realEstateImages) == |realEstateImages|) ==>
        r == Ok("Prepared property imagery")
      ensures |realEstateImages| == 0 ==> contentDb == old(contentDb)
      ensures |realEstateImages| > 0 && TotalDuration(old(contentDb)).Ok? ==>
        contentDb == SavedEntries(old(contentDb), tempDir, realEstateImages, TotalDuration(old(contentDb)).value,
                                  SavedCount(realEstateImages))
      ensures script == old(script) && videoPath == old(videoPath)
    {
      if propertyData.images.Some? {
        realEstateImages := propertyData.images.value;
      }
      var total := TotalDuration(contentDb);
      var images := realEstateImages;
      var n := |images|;
      if n > 0 {
        if total.Err? {
          return Err(TypeError);
        }
        var failed;
        contentDb, failed := WriteImageEntries(contentDb, tempDir, images, total.value);
        if failed {
          return Err(SaveError);
        }
      }
      return Ok("Prepared property imagery");
    }

    /** `_edit_and_render_video`: the plan is chosen and the video path set. */
    method EditAndRenderVideo() returns (message: string)
      modifies this
      ensures videoPath == Some(tempDir + "/real_estate_video.mp4")
      ensures message == "Video created successfully"
      ensures script == old(script) && contentDb == old(contentDb) && realEstateImages == old(realEstateImages)
    {
      var plan := EditingPlan(template);
      videoPath := Some(tempDir + "/real_estate_video.mp4");
      return "Video created successfully";
    }

    function GeneratedImages(): seq<ImageRef>
      reads this
    {
      realEstateImages
    }

    /** `test_run`: the script step, then the imagery step only when the
      property has a non-empty picture list; a raised error is reported with
      status "error", and the picture count only after the imagery step ran. */
    method TestRun() returns (results: TestResults)
      modifies this
      ensures results.script == Some(script)
      ensures old(script) != "" ==> script == old(script)
      ensures var ran := propertyData.images.Some? && |propertyData.images.value| > 0;
        var total := TotalDuration(old(contentDb)["script" := Text(script)]);
        var durationFails := ran && total.Err?;
        var saveFails := ran && total.Ok? && SavedCount(propertyData.images.value) < |propertyData.images.value|;
        var fails := durationFails || saveFails;
        (results.status == "error" <==> fails) && (results.status == "success" <==> !fails)
        && results.error == (if durationFails then Some(TypeError) else if saveFails then Some(SaveError) else None)
        && (results.imageCount.Some? <==> ran && !fails)
        && (results.imageCount.Some? ==> results.imageCount.value == |propertyData.images.value|)
      ensures videoPath == old(videoPath)
      ensures var ran := propertyData.images.Some? && |propertyData.images.value| > 0;
        var db := old(contentDb)["script" := Text(script)];
        realEstateImages == (if ran then propertyData.images.value else old(realEstateImages))
        && (!ran || TotalDuration(db).Err? ==> contentDb == db)
        && (ran && TotalDuration(db).Ok? ==>
              contentDb == SavedEntries(db, tempDir, realEstateImages, TotalDuration(db).value, SavedCount(realEstateImages)))
    {
      var s := PrepareScript();
      if propertyData.images.Some? && |propertyData.images.value| > 0 {
        var r := PrepareImagery();
        if r.Err? {
          return TestResults(Some(s), None, "error", Some(r.error));
        }
        return TestResults(Some(s), Some(|realEstateImages|), "success", None);
      }
      return TestResults(Some(s), None, "success", None);
    }
  }
}
