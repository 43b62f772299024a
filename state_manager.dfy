/** `StateManager`: saving the whitelisted part of the session as a
    project (images and the voice-over copied next to a `state.json`),
    loading it back, deleting it, and the list of project names kept in
    `project_list.json`. The file system is an abstract store from path to
    content; the session (`st.session_state`) is an object holding a map.
    JSON files hold the values they were written with, so a file written by
    `json.dump` reads back as the same entries. */
module StateManagement {
  import opened Base

  /** A picture object; `repr` is what `str()` prints for it. */
  datatype Image = Image(id: nat, repr: string)

  /** A session value. Only the first five kinds survive a JSON round trip. */
  datatype Value =
    | Str(s: string)
    | Number(x: real)
    | Flag(b: bool)
    | Strings(items: seq<string>)
    | Metadata(savedDate: string, version: string)
    | Images(imgs: seq<Image>)
    | Object(repr: string)

  /** What a path of the store holds. */
  datatype Content =
    | StateFile(entries: seq<(string, Value)>)
    | ListFile(names: seq<string>)
    | Picture(img: Image)
    | Bytes(id: nat)
    | Empty                            // a file of no bytes
    | Unreadable

  /** The project list and store after an operation, and what it returned. */
  datatype Saved = Saved(ok: bool, files: map<string, Content>, projects: seq<string>)

  /** The session after `load_state`, and what it returned. */
  datatype Loaded = Loaded(session: map<string, Value>, ok: bool)

  /** Failures inside the `try` of `save_state`. */
  datatype SaveFailure = SaveSucceeds | StateWriteFails | ListWriteFails

  /** Failures inside the `try` of `delete_project`. */
  datatype DeleteFailure = DeleteSucceeds | TreeRemovalFails | ListRewriteFails

  /** The session keys `save_state` and `get_project_data` consider, in order. */
  const KeysToSave: seq<string> := [
    "property_location", "property_text", "audio_path", "maps_images",
    "user_images", "bordered_property_image", "video_quality",
    "transition_type", "fps", "enhance_colors", "color_boost"]

  predicate IsImageKey(k: string)
  {
    k == "maps_images" || k == "user_images"
  }

  /** What `save_state` needs of the session to get through its loop: image
      keys hold image lists and the audio key holds a path. */
  predicate WellTyped(session: map<string, Value>)
  {
    ("maps_images" in session ==> session["maps_images"].Images?)
    && ("user_images" in session ==> session["user_images"].Images?)
    && ("audio_path" in session ==> session["audio_path"].Str?)
  }

  predicate JsonValue(v: Value)
  {
    !v.Images? && !v.Object?
  }

  /** `json.dump(..., default=str)`: values JSON cannot hold are written as
      their `str()`. */
  function Dumped(v: Value): (r: Value)
    ensures JsonValue(r)
    ensures JsonValue(v) ==> r == v
    ensures v.Object? ==> r == Str(v.repr)
    ensures v.Images? ==> r.Strings? && |r.items| == |v.imgs|
  {
    match v
    case Images(imgs) => Strings(seq(|imgs|, i requires 0 <= i < |imgs| => imgs[i].repr))
    case Object(repr) => Str(repr)
    case _ => v
  }

  function DumpAll(es: seq<(string, Value)>): (r: seq<(string, Value)>)
    ensures |r| == |es|
    ensures forall i :: 0 <= i < |es| ==> r[i] == (es[i].0, Dumped(es[i].1))
  {
    seq(|es|, i requires 0 <= i < |es| => (es[i].0, Dumped(es[i].1)))
  }

  // ---------------------------------------------------------------------
  // Paths (`os.path.join` with a relative project name)

  function ProjectDir(dir: string, name: string): string
  {
    dir + "/" + name
  }

  function StatePath(dir: string, name: string): string
  {
    ProjectDir(dir, name) + "/state.json"
  }

  function ImagePath(dir: string, name: string, key: string, idx: nat): string
  {
    ProjectDir(dir, name) + "/images/" + key + "/image_" + IntToString(idx) + ".png"
  }

  function AudioTarget(dir: string, name: string): string
  {
    ProjectDir(dir, name) + "/audio/audio.mp3"
  }

  function ListPath(dir: string): string
  {
    dir + "/project_list.json"
  }

  function ImagePaths(dir: string, name: string, key: string, n: nat): (ps: seq<string>)
    ensures |ps| == n
  {
    seq(n, i requires 0 <= i < n => ImagePath(dir, name, key, i))
  }

  /** `p` lies inside directory `d`. */
  predicate IsUnder(p: string, d: string)
  {
    d + "/" <= p
  }

  // ---------------------------------------------------------------------
  // Saving

  /** The `img.save` loop: image `i` of the list goes to `image_i.png`. */
  function WriteImages(fs: map<string, Content>, dir: string, name: string, key: string, imgs: seq<Image>): map<string, Content>
  {
    if imgs == [] then fs
    else WriteImages(fs, dir, name, key, imgs[..|imgs| - 1])[ImagePath(dir, name, key, |imgs| - 1) := Picture(imgs[|imgs| - 1])]
  }

  datatype Collected = Collected(entries: seq<(string, Value)>, files: map<string, Content>)

  /** What the voice-over copy leaves at `target`: the target is opened
      with 'wb', which truncates it, before the source is read, so a source
      that is the target itself is read empty. */
  function CopiedAudio(fs: map<string, Content>, src: string, target: string): Content
    requires src in fs
  {
    if src == target then Empty else fs[src]
  }

  /** One pass of the loop over `keys_to_save`: absent keys are skipped,
      images are written and replaced by their paths, the voice-over is
      copied only when its file exists, anything else is kept as it is. */
  function SaveKey(key: string, session: map<string, Value>, acc: Collected, dir: string, name: string): Collected
    requires WellTyped(session)
  {
    if key !in session then acc
    else if IsImageKey(key) then
      var imgs := session[key].imgs;
      Collected(acc.entries + [(key, Strings(ImagePaths(dir, name, key, |imgs|)))],
                WriteImages(acc.files, dir, name, key, imgs))
    else if key == "audio_path" then
      var src := session[key].s;
      if src in acc.files then
        Collected(acc.entries + [(key, Str(AudioTarget(dir, name)))],
                  acc.files[AudioTarget(dir, name) := CopiedAudio(acc.files, src, AudioTarget(dir, name))])
      else acc
    else Collected(acc.entries + [(key, session[key])], acc.files)
  }

  function Collect(keys: seq<string>, session: map<string, Value>, fs: map<string, Content>, dir: string, name: string): Collected
    requires WellTyped(session)
  {
    if keys == [] then Collected([], fs)
    else SaveKey(keys[|keys| - 1], session, Collect(keys[..|keys| - 1], session, fs, dir, name), dir, name)
  }

  /** `save_state`: refused for an existing name unless `overwrite`; then
      the state file is written and a new name is appended to the list,
      which is written back. The images and the voice-over are copied before
      the `try`, so a failure inside it leaves them behind. */
  function Save(dir: string, projects: seq<string>, files: map<string, Content>, session: map<string, Value>,
                name: string, overwrite: bool, savedDate: string, failure: SaveFailure): Saved
    requires WellTyped(session)
  {
    if !overwrite && name in projects then Saved(false, files, projects)
    else
      var c := Collect(KeysToSave, session, files, dir, name);
      if failure == StateWriteFails then Saved(false, c.files, projects)
      else
        var data := DumpAll(c.entries + [("_metadata", Metadata(savedDate, "1.0"))]);
        var files2 := c.files[StatePath(dir, name) := StateFile(data)];
        if name in projects then Saved(true, files2, projects)
        else if failure == ListWriteFails then Saved(false, files2, projects + [name])
        else Saved(true, files2[ListPath(dir) := ListFile(projects + [name])], projects + [name])
  }

  /** Failures before the `try` of `save_state`; each raises out of it. */
  datatype Crash =
    | ImageDirFails(dirKey: string)                  // `os.makedirs` of `images/<key>`
    | ImageWriteFails(imageKey: string, idx: nat)    // `img.save` of image `idx`
    | AudioCopyFails                                 // the directory or the copy of the voice-over

  /** The session key being handled when the failure happens. */
  function CrashKey(c: Crash): string
  {
    match c
    case ImageDirFails(k) => k
    case ImageWriteFails(k, _) => k
    case AudioCopyFails => "audio_path"
  }

  /** One pass of the loop when `crash` may happen in it: Err carries the
      store as the failure leaves it. */
  function StepAttempt(key: string, session: map<string, Value>, acc: Collected, dir: string, name: string,
                       crash: Option<Crash>): Result<Collected, map<string, Content>>
    requires WellTyped(session)
  {
    if crash.None? || key != CrashKey(crash.value) || key !in session then Ok(SaveKey(key, session, acc, dir, name))
    else match crash.value
      case ImageDirFails(_) =>
        if IsImageKey(key) then Err(acc.files) else Ok(SaveKey(key, session, acc, dir, name))
      case ImageWriteFails(_, idx) =>
        if IsImageKey(key) && idx < |session[key].imgs|
        then Err(WriteImages(acc.files, dir, name, key, session[key].imgs[..idx]))
        else Ok(SaveKey(key, session, acc, dir, name))
      case AudioCopyFails =>
        if session[key].s in acc.files then Err(acc.files) else Ok(SaveKey(key, session, acc, dir, name))
  }

  /** The loop over `keys_to_save`, stopped by the first failure. */
  function CollectAttempt(keys: seq<string>, session: map<string, Value>, fs: map<string, Content>,
                          dir: string, name: string, crash: Option<Crash>): Result<Collected, map<string, Content>>
    requires WellTyped(session)
  {
    if keys == [] then Ok(Collected([], fs))
    else match CollectAttempt(keys[..|keys| - 1], session, fs, dir, name, crash)
      case Err(f) => Err(f)
      case Ok(acc) => StepAttempt(keys[|keys| - 1], session, acc, dir, name, crash)
  }

  /** How a call of `save_state` ends: it returns, or it raises and leaves
      the store as the failure found it. */
  datatype Attempt = Finished(saved: Saved) | Raised(left: map<string, Content>)

  /** `save_state` with the writes before its `try` able to fail: `Save`
      when none does. */
  function SaveAttempt(dir: string, projects: seq<string>, files: map<string, Content>, session: map<string, Value>,
                       name: string, overwrite: bool, savedDate: string, failure: SaveFailure,
                       crash: Option<Crash>): Attempt
    requires WellTyped(session)
  {
    if !overwrite && name in projects then Finished(Saved(false, files, projects))
    else match CollectAttempt(KeysToSave, session, files, dir, name, crash)
      case Err(f) => Raised(f)
      case Ok(_) => Finished(Save(dir, projects, files, session, name, overwrite, savedDate, failure))
  }

  // ---------------------------------------------------------------------
  // Loading

  /** Iterating a loaded JSON value as the image loop does: a list gives its
      items, a string its characters, an object its keys; numbers and
      booleans are not iterable. */
  function AsPathList(v: Value): Option<seq<string>>
  {
    match v
    case Strings(items) => Some(items)
    case Str(s) => Some(seq(|s|, i requires 0 <= i < |s| => [s[i]]))
    case Metadata(_, _) => Some(["saved_date", "version"])
    case _ => None
  }

  /** The inner loop of `load_state`: missing paths are skipped, and a path
      that is not a picture makes `Image.open` raise (None). */
  function LoadImages(ps: seq<string>, files: map<string, Content>): Option<seq<Image>>
  {
    if ps == [] then Some([])
    else
      match LoadImages(ps[..|ps| - 1], files)
      case None => None
      case Some(imgs) =>
        var p := ps[|ps| - 1];
        if p !in files then Some(imgs)
        else if files[p].Picture? then Some(imgs + [files[p].img])
        else None
  }

  /** The entry makes `load_state` raise. */
  predicate EntryFails(e: (string, Value), files: map<string, Content>)
  {
    IsImageKey(e.0) && (AsPathList(e.1).None? || LoadImages(AsPathList(e.1).value, files).None?)
  }

  /** The value an entry that does not raise writes into the session, if
      any: images only when at least one was found, never `_metadata`. */
  function Restored(e: (string, Value), files: map<string, Content>): Option<Value>
    requires !EntryFails(e, files)
  {
    if IsImageKey(e.0) then
      var imgs := LoadImages(AsPathList(e.1).value, files).value;
      if imgs != [] then Some(Images(imgs)) else None
    else if e.0 == "_metadata" then None
    else Some(e.1)
  }

  function LoadEntry(session: map<string, Value>, e: (string, Value), files: map<string, Content>): Option<map<string, Value>>
  {
    if EntryFails(e, files) then None
    else match Restored(e, files)
      case None => Some(session)
      case Some(v) => Some(session[e.0 := v])
  }

  /** The loop over the state file's items; an exception stops it, leaving
      the keys already written in place. */
  function LoadFrom(session: map<string, Value>, es: seq<(string, Value)>, files: map<string, Content>): Loaded
  {
    if es == [] then Loaded(session, true)
    else
      var prev := LoadFrom(session, es[..|es| - 1], files);
      if !prev.ok then prev
      else match LoadEntry(prev.session, es[|es| - 1], files)
        case None => Loaded(prev.session, false)
        case Some(m) => Loaded(m, true)
  }

  /** `load_state`: False without a readable state file. */
  function Load(session: map<string, Value>, files: map<string, Content>, dir: string, name: string): Loaded
  {
    var p := StatePath(dir, name);
    if p !in files || !files[p].StateFile? then Loaded(session, false)
    else LoadFrom(session, files[p].entries, files)
  }

  // ---------------------------------------------------------------------
  // Deleting and the project list

  /** `list.remove`: drops the first occurrence. */
  function RemoveFirst(s: seq<string>, x: string): (r: seq<string>)
    ensures x in s ==> multiset(r) == multiset(s) - multiset{x}
    ensures x !in s ==> r == s
  {
    if s == [] then []
    else
      var head, tail := s[0], s[1..];
      assert s == [head] + tail;
      assert multiset(s) == multiset{head} + multiset(tail);
      if head == x then tail
      else
        assert x in s ==> x in tail;
        [head] + RemoveFirst(tail, x)
  }

  /** `delete_project`: the project's directory is removed and its name,
      if listed, is dropped from the list, which is written back. */
  function Delete(dir: string, projects: seq<string>, files: map<string, Content>, name: string, failure: DeleteFailure): Saved
  {
    if failure == TreeRemovalFails then Saved(false, files, projects)
    else
      var fs := map p | p in files && !IsUnder(p, ProjectDir(dir, name)) :: files[p];
      if name !in projects then Saved(true, fs, projects)
      else
        var rest := RemoveFirst(projects, name);
        if failure == ListRewriteFails then Saved(false, fs, rest)
        else Saved(true, fs[ListPath(dir) := ListFile(rest)], rest)
  }

  /** `_load_project_list`: the stored list, or [] when the file is missing
      or does not parse. The program only ever writes a list of names
      there, so the store has no other parsed value under that path. */
  function StoredList(files: map<string, Content>, dir: string): (names: seq<string>)
    ensures ListPath(dir) in files && files[ListPath(dir)].ListFile? ==> names == files[ListPath(dir)].names
    ensures ListPath(dir) !in files || !files[ListPath(dir)].ListFile? ==> names == []
  {
    var p := ListPath(dir);
    if p in files && files[p].ListFile? then files[p].names else []
  }

  /** The session restricted to the whitelisted keys. */
  function ProjectData(session: map<string, Value>): (data: map<string, Value>)
    ensures forall k :: k in data <==> k in session && k in KeysToSave
    ensures forall k :: k in data ==> data[k] == session[k]
  {
    map k | k in session && k in KeysToSave :: session[k]
  }

  predicate NoDuplicates(s: seq<string>)
  {
    forall i, j :: 0 <= i < j < |s| ==> s[i] != s[j]
  }

  // ---------------------------------------------------------------------
  // The objects

  /** `st.session_state`. */
  class Session {
    var values: map<string, Value>

    constructor(values: map<string, Value>)
      ensures this.values == values
    {
      this.values := values;
    }
  }

  class StateManager {
    const storageDir: string
    var projectList: seq<string>
    var files: map<string, Content>

    /** `__init__`: the project list is read from the store. */
    constructor(storageDir: string, files: map<string, Content>)
      ensures this.storageDir == storageDir && this.files == files
      ensures projectList == StoredList(files, storageDir)
    {
      this.storageDir := storageDir;
      this.files := files;
      var p := storageDir + "/project_list.json";
      if p in files && files[p].ListFile? {
        projectList := files[p].names;
      } else {
        projectList := [];
      }
    }

    /** `raised` is the call raising out of `save_state` (never a return). */
    method SaveState(name: string, overwrite: bool, session: Session, savedDate: string, failure: SaveFailure,
                     crash: Option<Crash>)
      returns (ok: bool, raised: bool)
      requires WellTyped(session.values)
      modifies this
      ensures (if raised then Raised(files) else Finished(Saved(ok, files, projectList)))
        == SaveAttempt(storageDir, old(projectList), old(files), session.values, name, overwrite, savedDate, failure, crash)
      ensures raised ==> !ok && projectList == old(projectList)
    {
      if !overwrite && name in projectList {
        return false, false;
      }
      var entries, loopRaised;
      entries, files, loopRaised := SaveLoop(session.values, files, storageDir, name, crash);
      if loopRaised {
        return false, true;
      }
      if failure == StateWriteFails {
        return false, false;
      }
      var stateData := DumpAll(entries + [("_metadata", Metadata(savedDate, "1.0"))]);
      files := files[storageDir + "/" + name + "/state.json" := StateFile(stateData)];
      if name !in projectList {
        projectList := projectList + [name];
        if failure == ListWriteFails {
          return false, false;
        }
        files := files[storageDir + "/project_list.json" := ListFile(projectList)];
      }
      return true, false;
    }

    method LoadState(name: string, session: Session) returns (ok: bool)
      modifies session
      ensures Loaded(session.values, ok) == Load(old(session.values), files, storageDir, name)
    {
      var statePath := storageDir + "/" + name + "/state.json";
      if statePath !in files || !files[statePath].StateFile? {
        return false;
      }
      var stateData := files[statePath].entries;
      var i := 0;
      while i < |stateData|
        invariant 0 <= i <= |stateData|
        invariant Loaded(session.values, true) == LoadFrom(old(session.values), stateData[..i], files)
      {
        assert stateData[..i + 1][..i] == stateData[..i];
        var (key, value) := stateData[i];
        if key == "maps_images" || key == "user_images" {
          var paths := AsPathList(value);
          if paths.None? {
            LoadFromFailureSticks(old(session.values), stateData, files, i + 1);
            assert stateData[..|stateData|] == stateData;
            return false;
          }
          var ps := paths.value;
          var images: seq<Image> := [];
          var j := 0;
          while j < |ps|
            invariant 0 <= j <= |ps|
            invariant LoadImages(ps[..j], files) == Some(images)
          {
            assert ps[..j + 1][..j] == ps[..j];
            if ps[j] in files {
              if !files[ps[j]].Picture? {
                assert LoadImages(ps[..j + 1], files).None?;
                assert forall m :: j + 1 <= m <= |ps| ==> LoadImages(ps[..m], files).None? by {
                  LoadImagesFailureSticks(ps, files, j + 1);
                }
                assert ps[..|ps|] == ps;
                LoadFromFailureSticks(old(session.values), stateData, files, i + 1);
                assert stateData[..|stateData|] == stateData;
                return false;
              }
              images := images + [files[ps[j]].img];
            }
            j := j + 1;
          }
          assert ps[..|ps|] == ps;
          if images != [] {
            session.values := session.values[key := Images(images)];
          }
        } else if key != "_metadata" {
          session.values := session.values[key := value];
        }
        i := i + 1;
      }
      assert stateData[..|stateData|] == stateData;
      return true;
    }

    method DeleteProject(name: string, failure: DeleteFailure) returns (ok: bool)
      modifies this
      ensures Saved(ok, files, projectList) == Delete(storageDir, old(projectList), old(files), name, failure)
    {
      if failure == TreeRemovalFails {
        return false;
      }
      var projectDir := ProjectDir(storageDir, name);
      files := map p | p in files && !IsUnder(p, projectDir) :: files[p];
      if name in projectList {
        projectList := RemoveFirst(projectList, name);
        if failure == ListRewriteFails {
          return false;
        }
        files := files[ListPath(storageDir) := ListFile(projectList)];
      }
      return true;
    }

    method GetProjectList() returns (names: seq<string>)
      ensures names == projectList
    {
      names := projectList;
    }
  }

  /** The `img.save` loop of `save_state` for one image key. */
  method SaveImages(fs: map<string, Content>, dir: string, name: string, key: string, imgs: seq<Image>)
    returns (files: map<string, Content>, savedPaths: seq<string>)
    ensures files == WriteImages(fs, dir, name, key, imgs)
    ensures savedPaths == ImagePaths(dir, name, key, |imgs|)
  {
    files := fs;
    savedPaths := [];
    var j := 0;
    while j < |imgs|
      invariant 0 <= j <= |imgs|
      invariant files == WriteImages(fs, dir, name, key, imgs[..j])
      invariant savedPaths == ImagePaths(dir, name, key, j)
    {
      assert imgs[..j + 1][..j] == imgs[..j];
      var imgPath := dir + "/" + name + "/images/" + key + "/image_" + IntToString(j) + ".png";
      assert imgPath == ImagePath(dir, name, key, j);
      files := files[imgPath := Picture(imgs[j])];
      savedPaths := savedPaths + [imgPath];
      ImagePathsSnoc(dir, name, key, j);
      j := j + 1;
    }
    assert imgs[..|imgs|] == imgs;
  }

  lemma ImagePathsSnoc(dir: string, name: string, key: string, j: nat)
    ensures ImagePaths(dir, name, key, j + 1) == ImagePaths(dir, name, key, j) + [ImagePath(dir, name, key, j)]
  {
    var a, b := ImagePaths(dir, name, key, j + 1), ImagePaths(dir, name, key, j) + [ImagePath(dir, name, key, j)];
    forall i | 0 <= i < j + 1
      ensures a[i] == b[i]
    {
    }
  }

  /** One pass of the loop over `keys_to_save`; `raised` when `crash`
      happens in it. */
  method SaveKeyStep(key: string, session: map<string, Value>, entries: seq<(string, Value)>,
                     fs: map<string, Content>, dir: string, name: string, crash: Option<Crash>)
    returns (entries': seq<(string, Value)>, files: map<string, Content>, raised: bool)
    requires WellTyped(session)
    ensures raised ==> StepAttempt(key, session, Collected(entries, fs), dir, name, crash) == Err(files)
    ensures !raised ==> StepAttempt(key, session, Collected(entries, fs), dir, name, crash) == Ok(Collected(entries', files))
  {
    entries', files, raised := entries, fs, false;
    var strikes := crash.Some? && CrashKey(crash.value) == key;
    if key in session {
      if key == "maps_images" || key == "user_images" {
        var imgs := session[key].imgs;
        if strikes && crash.value.ImageDirFails? {
          return entries', files, true;
        }
        if strikes && crash.value.ImageWriteFails? && crash.value.idx < |imgs| {
          // the loop writes the images before `idx`, then `img.save` raises
          var written;
          files, written := SaveImages(fs, dir, name, key, imgs[..crash.value.idx]);
          return entries', files, true;
        }
        var savedPaths;
        files, savedPaths := SaveImages(fs, dir, name, key, imgs);
        entries' := entries + [(key, Strings(savedPaths))];
      } else if key == "audio_path" {
        var src := session[key].s;
        if src in fs {
          if strikes && crash.value.AudioCopyFails? {
            return entries', files, true;
          }
          var audioPath := dir + "/" + name + "/audio/audio.mp3";
          files := fs[audioPath := CopiedAudio(fs, src, audioPath)];
          entries' := entries + [(key, Str(audioPath))];
        }
      } else {
        entries' := entries + [(key, session[key])];
      }
    }
  }

  /** The loop over `keys_to_save`: it raises with the store the failure
      leaves, or ends with the entries and the store `Collect` gives. */
  method SaveLoop(session: map<string, Value>, fs: map<string, Content>, dir: string, name: string, crash: Option<Crash>)
    returns (entries: seq<(string, Value)>, files: map<string, Content>, raised: bool)
    requires WellTyped(session)
    ensures raised ==> CollectAttempt(KeysToSave, session, fs, dir, name, crash) == Err(files)
    ensures !raised ==> CollectAttempt(KeysToSave, session, fs, dir, name, crash) == Ok(Collected(entries, files))
    ensures !raised ==> Collected(entries, files) == Collect(KeysToSave, session, fs, dir, name)
  {
    entries, files := [], fs;
    var i := 0;
    while i < |KeysToSave|
      invariant 0 <= i <= |KeysToSave|
      invariant CollectAttempt(KeysToSave[..i], session, fs, dir, name, crash) == Ok(Collected(entries, files))
    {
      assert KeysToSave[..i + 1][..i] == KeysToSave[..i];
      var stepRaised;
      entries, files, stepRaised := SaveKeyStep(KeysToSave[i], session, entries, files, dir, name, crash);
      if stepRaised {
        CollectAttemptErrSticks(KeysToSave, session, fs, dir, name, crash, i + 1);
        assert KeysToSave[..|KeysToSave|] == KeysToSave;
        return entries, files, true;
      }
      i := i + 1;
    }
    assert KeysToSave[..|KeysToSave|] == KeysToSave;
    CollectAttemptOk(KeysToSave, session, fs, dir, name, crash);
    return entries, files, false;
  }

  /** Once the loop has raised, the remaining keys are not looked at. */
  lemma {:induction false} CollectAttemptErrSticks(keys: seq<string>, session: map<string, Value>,
                                                   fs: map<string, Content>, dir: string, name: string,
                                                   crash: Option<Crash>, j: nat)
    requires WellTyped(session) && j <= |keys|
    requires CollectAttempt(keys[..j], session, fs, dir, name, crash).Err?
    ensures CollectAttempt(keys, session, fs, dir, name, crash) == CollectAttempt(keys[..j], session, fs, dir, name, crash)
    decreases |keys| - j
  {
    if j < |keys| {
      assert keys[..j + 1][..j] == keys[..j];
      CollectAttemptErrSticks(keys, session, fs, dir, name, crash, j + 1);
    } else {
      assert keys[..j] == keys;
    }
  }

  /** A loop that does not raise collects what `Collect` does. */
  lemma {:induction false} CollectAttemptOk(keys: seq<string>, session: map<string, Value>,
                                            fs: map<string, Content>, dir: string, name: string, crash: Option<Crash>)
    requires WellTyped(session)
    ensures CollectAttempt(keys, session, fs, dir, name, crash).Ok?
      ==> CollectAttempt(keys, session, fs, dir, name, crash).value == Collect(keys, session, fs, dir, name)
  {
    if keys != [] {
      CollectAttemptOk(keys[..|keys| - 1], session, fs, dir, name, crash);
    }
  }

  /** Without a failure before the `try`, the loop never raises. */
  lemma {:induction false} CollectAttemptMissing(keys: seq<string>, session: map<string, Value>,
                                                 fs: map<string, Content>, dir: string, name: string, crash: Option<Crash>)
    requires WellTyped(session)
    requires crash.Some? ==> forall i :: 0 <= i < |keys| ==> keys[i] != CrashKey(crash.value)
    ensures CollectAttempt(keys, session, fs, dir, name, crash) == Ok(Collect(keys, session, fs, dir, name))
  {
    if keys != [] {
      CollectAttemptMissing(keys[..|keys| - 1], session, fs, dir, name, crash);
    }
  }

  /** A failure tied to key `keys[i]` decides the loop at that key alone. */
  lemma {:induction false} CollectAttemptAt(keys: seq<string>, session: map<string, Value>, fs: map<string, Content>,
                                            dir: string, name: string, c: Crash, i: nat)
    requires WellTyped(session)
    requires i < |keys| && keys[i] == CrashKey(c)
    requires forall j :: 0 <= j < |keys| && j != i ==> keys[j] != CrashKey(c)
    ensures CollectAttempt(keys, session, fs, dir, name, Some(c))
      == match StepAttempt(keys[i], session, Collect(keys[..i], session, fs, dir, name), dir, name, Some(c))
         case Err(f) => Err(f)
         case Ok(_) => Ok(Collect(keys, session, fs, dir, name))
  {
    var n := |keys| - 1;
    if n == i {
      assert keys[..n] == keys[..i];
      CollectAttemptMissing(keys[..n], session, fs, dir, name, Some(c));
    } else {
      assert keys[..n][..i] == keys[..i];
      CollectAttemptAt(keys[..n], session, fs, dir, name, c, i);
    }
  }

  /** What the loop writes leaves alone every path that is neither an image
      path nor the voice-over copy. */
  lemma {:induction false} CollectAgrees(keys: seq<string>, session: map<string, Value>, fs: map<string, Content>,
                                         dir: string, name: string, p: string)
    requires WellTyped(session)
    requires p != AudioTarget(dir, name)
    requires forall k: string, j: nat :: p != ImagePath(dir, name, k, j)
    ensures Agrees(fs, Collect(keys, session, fs, dir, name).files, p)
  {
    if keys != [] {
      var n := |keys| - 1;
      CollectAgrees(keys[..n], session, fs, dir, name, p);
      var prev := Collect(keys[..n], session, fs, dir, name);
      if keys[n] in session && IsImageKey(keys[n]) {
        var imgs := session[keys[n]].imgs;
        WriteImagesFacts(prev.files, dir, name, keys[n], imgs);
        assert forall j :: 0 <= j < |imgs| ==> p != ImagePath(dir, name, keys[n], j);
        assert Agrees(prev.files, WriteImages(prev.files, dir, name, keys[n], imgs), p);
      }
    }
  }

  /** Neither `state.json` nor the project list is among the paths the loop
      writes. */
  lemma RecordsApart(dir: string, name: string)
    ensures StatePath(dir, name) != AudioTarget(dir, name) && ListPath(dir) != AudioTarget(dir, name)
    ensures forall k: string, j: nat :: StatePath(dir, name) != ImagePath(dir, name, k, j)
    ensures forall k: string, j: nat :: ListPath(dir) != ImagePath(dir, name, k, j)
  {
    var d := ProjectDir(dir, name);
    assert StatePath(dir, name)[|d| + 1] == 's';
    assert AudioTarget(dir, name)[|d| + 1] == 'a';
    if |ListPath(dir)| == |AudioTarget(dir, name)| {
      assert ListPath(dir)[|dir| + 2] == 'r';
      assert AudioTarget(dir, name)[|dir| + 2] == '/';
    }
    forall k: string, j: nat
      ensures StatePath(dir, name) != ImagePath(dir, name, k, j) && ListPath(dir) != ImagePath(dir, name, k, j)
    {
      ProjectFilesApart(dir, name, k, j);
    }
  }

  /** A raise leaves `state.json` and the project list file as they were. */
  lemma RaisedKeepsRecords(keys: seq<string>, session: map<string, Value>, fs: map<string, Content>,
                           dir: string, name: string, c: Crash, i: nat)
    requires WellTyped(session) && i <= |keys|
    requires StepAttempt(CrashKey(c), session, Collect(keys[..i], session, fs, dir, name), dir, name, Some(c)).Err?
    ensures var f := StepAttempt(CrashKey(c), session, Collect(keys[..i], session, fs, dir, name), dir, name, Some(c)).error;
      Agrees(fs, f, StatePath(dir, name)) && Agrees(fs, f, ListPath(dir))
  {
    RecordsApart(dir, name);
    var prev := Collect(keys[..i], session, fs, dir, name);
    CollectAgrees(keys[..i], session, fs, dir, name, StatePath(dir, name));
    CollectAgrees(keys[..i], session, fs, dir, name, ListPath(dir));
    var f := StepAttempt(CrashKey(c), session, prev, dir, name, Some(c)).error;
    if c.ImageWriteFails? {
      var imgs := session[c.imageKey].imgs[..c.idx];
      assert f == WriteImages(prev.files, dir, name, c.imageKey, imgs);
      WriteImagesFacts(prev.files, dir, name, c.imageKey, imgs);
      assert Agrees(prev.files, f, StatePath(dir, name)) && Agrees(prev.files, f, ListPath(dir));
    } else {
      assert f == prev.files;
    }
  }

  /** With every write before the `try` succeeding, `save_state` is `Save`. */
  lemma SaveWithoutCrash(dir: string, projects: seq<string>, files: map<string, Content>, session: map<string, Value>,
                         name: string, overwrite: bool, savedDate: string, failure: SaveFailure)
    requires WellTyped(session)
    ensures SaveAttempt(dir, projects, files, session, name, overwrite, savedDate, failure, None)
      == Finished(Save(dir, projects, files, session, name, overwrite, savedDate, failure))
  {
    CollectAttemptMissing(KeysToSave, session, files, dir, name, None);
  }

  /** Where an image key sits in `keys_to_save`; it appears only there. */
  lemma ImageKeyAt(key: string) returns (i: nat)
    requires IsImageKey(key)
    ensures i < |KeysToSave| && KeysToSave[i] == key && (key == "user_images" ==> KeysToSave[i - 1] == "maps_images")
    ensures forall j :: 0 <= j < |KeysToSave| && j != i ==> KeysToSave[j] != key
  {
    i := if key == "maps_images" then 3 else 4;
  }

  /** `img.save` of image `idx` raising: it raises exactly when the save is
      not refused and that image exists; the images written before it stay,
      and so do the pictures of an image key handled earlier, while
      `state.json` and the project list file are untouched. Otherwise the
      call ends as `Save` says. */
  lemma ImageWriteCrash(dir: string, projects: seq<string>, files: map<string, Content>, session: map<string, Value>,
                        name: string, overwrite: bool, savedDate: string, failure: SaveFailure, key: string, idx: nat)
    requires WellTyped(session) && IsImageKey(key)
    ensures var a := SaveAttempt(dir, projects, files, session, name, overwrite, savedDate, failure, Some(ImageWriteFails(key, idx)));
      (a.Raised? <==> (overwrite || name !in projects) && key in session && idx < |session[key].imgs|)
      && (a.Finished? ==> a.saved == Save(dir, projects, files, session, name, overwrite, savedDate, failure))
      && (a.Raised? ==>
            Agrees(files, a.left, StatePath(dir, name)) && Agrees(files, a.left, ListPath(dir))
            && (forall j :: 0 <= j < idx ==>
                  ImagePath(dir, name, key, j) in a.left && a.left[ImagePath(dir, name, key, j)] == Picture(session[key].imgs[j]))
            && (key == "user_images" && "maps_images" in session ==>
                  forall j :: 0 <= j < |session["maps_images"].imgs| ==>
                    ImagePath(dir, name, "maps_images", j) in a.left
                    && a.left[ImagePath(dir, name, "maps_images", j)] == Picture(session["maps_images"].imgs[j])))
  {
    var c := ImageWriteFails(key, idx);
    var i := ImageKeyAt(key);
    CollectAttemptAt(KeysToSave, session, files, dir, name, c, i);
    var prev := Collect(KeysToSave[..i], session, files, dir, name);
    if (overwrite || name !in projects) && key in session && idx < |session[key].imgs| {
      var imgs := session[key].imgs;
      var left := WriteImages(prev.files, dir, name, key, imgs[..idx]);
      RaisedKeepsRecords(KeysToSave, session, files, dir, name, c, i);
      WriteImagesFacts(prev.files, dir, name, key, imgs[..idx]);
      assert forall j :: 0 <= j < idx ==> imgs[..idx][j] == imgs[j];
      if key == "user_images" && "maps_images" in session {
        KeysToSaveFacts();
        CollectPictures(KeysToSave[..i], session, files, dir, name);
        assert "maps_images" in KeysToSave[..i];
        forall j | 0 <= j < |session["maps_images"].imgs|
          ensures ImagePath(dir, name, "maps_images", j) in left
            && left[ImagePath(dir, name, "maps_images", j)] == Picture(session["maps_images"].imgs[j])
        {
          var path := ImagePath(dir, name, "maps_images", j);
          forall j' | 0 <= j' < |imgs[..idx]|
            ensures path != ImagePath(dir, name, key, j')
          {
            ImageKeysApart(dir, name, j, j');
          }
          assert path in prev.files && prev.files[path] == Picture(session["maps_images"].imgs[j]);
          assert Agrees(prev.files, left, path);
        }
      }
    }
  }

  /** `os.makedirs` of an image key's directory raising: it raises exactly
      when the save is not refused and the key is in the session; the
      pictures of an image key handled earlier stay, while `state.json` and
      the project list file are untouched. */
  lemma ImageDirCrash(dir: string, projects: seq<string>, files: map<string, Content>, session: map<string, Value>,
                      name: string, overwrite: bool, savedDate: string, failure: SaveFailure, key: string)
    requires WellTyped(session) && IsImageKey(key)
    ensures var a := SaveAttempt(dir, projects, files, session, name, overwrite, savedDate, failure, Some(ImageDirFails(key)));
      (a.Raised? <==> (overwrite || name !in projects) && key in session)
      && (a.Finished? ==> a.saved == Save(dir, projects, files, session, name, overwrite, savedDate, failure))
      && (a.Raised? ==>
            Agrees(files, a.left, StatePath(dir, name)) && Agrees(files, a.left, ListPath(dir))
            && (key == "user_images" && "maps_images" in session ==>
                  forall j :: 0 <= j < |session["maps_images"].imgs| ==>
                    ImagePath(dir, name, "maps_images", j) in a.left
                    && a.left[ImagePath(dir, name, "maps_images", j)] == Picture(session["maps_images"].imgs[j])))
  {
    var c := ImageDirFails(key);
    var i := ImageKeyAt(key);
    CollectAttemptAt(KeysToSave, session, files, dir, name, c, i);
    if (overwrite || name !in projects) && key in session {
      RaisedKeepsRecords(KeysToSave, session, files, dir, name, c, i);
      if key == "user_images" && "maps_images" in session {
        KeysToSaveFacts();
        CollectPictures(KeysToSave[..i], session, files, dir, name);
        assert "maps_images" in KeysToSave[..i];
      }
    }
  }

  /** The voice-over copy raising: it raises exactly when the save is not
      refused and the voice-over file exists, and then nothing has been
      written yet. */
  lemma AudioCopyCrash(dir: string, projects: seq<string>, files: map<string, Content>, session: map<string, Value>,
                       name: string, overwrite: bool, savedDate: string, failure: SaveFailure)
    requires WellTyped(session)
    ensures var a := SaveAttempt(dir, projects, files, session, name, overwrite, savedDate, failure, Some(AudioCopyFails));
      (a.Raised? <==> (overwrite || name !in projects) && "audio_path" in session && session["audio_path"].s in files)
      && (a.Finished? ==> a.saved == Save(dir, projects, files, session, name, overwrite, savedDate, failure))
      && (a.Raised? ==> a.left == files)
  {
    assert KeysToSave[2] == "audio_path";
    CollectAttemptAt(KeysToSave, session, files, dir, name, AudioCopyFails, 2);
    CollectUntouched(KeysToSave[..2], session, files, dir, name);
  }

  /** Once an image is unreadable, every longer prefix fails too. */
  lemma {:induction false} LoadImagesFailureSticks(ps: seq<string>, files: map<string, Content>, j: nat)
    requires j <= |ps|
    requires LoadImages(ps[..j], files).None?
    ensures forall m :: j <= m <= |ps| ==> LoadImages(ps[..m], files).None?
    decreases |ps| - j
  {
    if j < |ps| {
      assert ps[..j + 1][..j] == ps[..j];
      LoadImagesFailureSticks(ps, files, j + 1);
    }
  }

  /** Once an entry raises, the rest of the state file is not looked at. */
  lemma {:induction false} LoadFromFailureSticks(session: map<string, Value>, es: seq<(string, Value)>,
                                                 files: map<string, Content>, j: nat)
    requires j <= |es|
    requires !LoadFrom(session, es[..j], files).ok
    ensures forall m :: j <= m <= |es| ==> LoadFrom(session, es[..m], files) == LoadFrom(session, es[..j], files)
    decreases |es| - j
  {
    if j < |es| {
      assert es[..j + 1][..j] == es[..j];
      LoadFromFailureSticks(session, es, files, j + 1);
    }
  }

  /** `get_project_data`: the loop over the whitelist. */
  method GetProjectData(session: Session) returns (data: map<string, Value>)
    ensures data == ProjectData(session.values)
  {
    data := map[];
    for i := 0 to |KeysToSave|
      invariant forall k :: k in data <==> k in session.values && k in KeysToSave[..i]
      invariant forall k :: k in data ==> data[k] == session.values[k]
    {
      var key := KeysToSave[i];
      if key in session.values {
        data := data[key := session.values[key]];
      }
    }
    assert KeysToSave[..|KeysToSave|] == KeysToSave;
  }

  /** `set_project_data`: every given key is written, the rest is kept. */
  method SetProjectData(session: Session, data: map<string, Value>)
    modifies session
    ensures session.values == old(session.values) + data
  {
    var pending := data.Keys;
    while pending != {}
      invariant pending <= data.Keys
      invariant session.values == old(session.values) + map k | k in data && k !in pending :: data[k]
      decreases pending
    {
      var k :| k in pending;
      session.values := session.values[k := data[k]];
      pending := pending - {k};
    }
    assert (map k | k in data && k !in pending :: data[k]) == data;
  }

  // ---------------------------------------------------------------------
  // Properties

  /** A name that is listed is not saved again unless `overwrite` is set,
      and nothing is written. */
  lemma SaveRefused(dir: string, projects: seq<string>, files: map<string, Content>, session: map<string, Value>,
                    name: string, savedDate: string, failure: SaveFailure)
    requires WellTyped(session)
    requires name in projects
    ensures Save(dir, projects, files, session, name, false, savedDate, failure) == Saved(false, files, projects)
  {
  }

  /** A save that gets past the check appends the name only when it is not
      listed yet; a refused save, or one whose state file cannot be written,
      leaves the list alone. */
  lemma SaveAppendsIfAbsent(dir: string, projects: seq<string>, files: map<string, Content>, session: map<string, Value>,
                            name: string, overwrite: bool, savedDate: string, failure: SaveFailure)
    requires WellTyped(session)
    ensures var r := Save(dir, projects, files, session, name, overwrite, savedDate, failure);
      if (!overwrite && name in projects) || failure == StateWriteFails then r.projects == projects && !r.ok
      else r.projects == (if name in projects then projects else projects + [name])
  {
  }

  /** Saving keeps the list free of duplicates, and after a successful save
      the name is listed exactly once and the list file holds the list
      whenever it had to change. */
  lemma SaveKeepsNamesUnique(dir: string, projects: seq<string>, files: map<string, Content>, session: map<string, Value>,
                             name: string, overwrite: bool, savedDate: string, failure: SaveFailure)
    requires WellTyped(session)
    requires NoDuplicates(projects)
    ensures var r := Save(dir, projects, files, session, name, overwrite, savedDate, failure);
      NoDuplicates(r.projects)
      && (r.ok ==> multiset(r.projects)[name] == 1)
      && (r.ok && name !in projects ==> ListPath(dir) in r.files && r.files[ListPath(dir)] == ListFile(r.projects))
  {
    var r := Save(dir, projects, files, session, name, overwrite, savedDate, failure);
    if r.ok {
      if name in projects {
        var i :| 0 <= i < |projects| && projects[i] == name;
        MultisetOfUnique(projects, i);
      } else {
        assert multiset(projects + [name]) == multiset(projects) + multiset{name};
      }
    }
  }

  /** In a list without duplicates a listed name occurs once. */
  lemma {:induction false} MultisetOfUnique(s: seq<string>, i: nat)
    requires NoDuplicates(s)
    requires i < |s|
    ensures multiset(s)[s[i]] == 1
  {
    if i == |s| - 1 {
      NotInPrefix(s, i);
      assert s == s[..i] + [s[i]];
    } else {
      assert s == s[..|s| - 1] + [s[|s| - 1]];
      assert s[..|s| - 1][i] == s[i];
      MultisetOfUnique(s[..|s| - 1], i);
    }
  }

  lemma NotInPrefix(s: seq<string>, i: nat)
    requires NoDuplicates(s)
    requires i < |s|
    ensures s[i] !in s[..i]
  {
  }

  /** Deleting drops the name from a list without duplicates and keeps the
      other names; then the files of the project are gone. It reports
      success even for a name that was never saved. */
  lemma DeleteRemovesName(dir: string, projects: seq<string>, files: map<string, Content>, name: string, failure: DeleteFailure)
    requires NoDuplicates(projects)
    ensures var r := Delete(dir, projects, files, name, failure);
      (r.ok <==> failure == DeleteSucceeds || (failure == ListRewriteFails && name !in projects))
      && (failure != TreeRemovalFails ==>
            name !in r.projects
            && multiset(r.projects) == multiset(projects) - multiset{name}
            && forall p :: p in r.files && IsUnder(p, ProjectDir(dir, name)) ==> p == ListPath(dir) && r.ok)
      && (failure == TreeRemovalFails ==> r.projects == projects && r.files == files)
  {
    var r := Delete(dir, projects, files, name, failure);
    if failure != TreeRemovalFails {
      DeleteClearsProject(dir, projects, files, name, failure);
      if name in projects {
        var i :| 0 <= i < |projects| && projects[i] == name;
        MultisetOfUnique(projects, i);
        assert multiset(r.projects)[name] == 0;
      }
    }
  }

  /** Of the project's directory, only the list file (when written) is left. */
  lemma DeleteClearsProject(dir: string, projects: seq<string>, files: map<string, Content>, name: string, failure: DeleteFailure)
    requires failure != TreeRemovalFails
    ensures var r := Delete(dir, projects, files, name, failure);
      forall p :: p in r.files && IsUnder(p, ProjectDir(dir, name)) ==> p == ListPath(dir) && r.ok
  {
  }

  /** A state file whose path is absent leaves the session alone. */
  lemma LoadWithoutStateFile(session: map<string, Value>, files: map<string, Content>, dir: string, name: string)
    requires StatePath(dir, name) !in files
    ensures Load(session, files, dir, name) == Loaded(session, false)
  {
  }

  predicate Kept(before: map<string, Value>, after: map<string, Value>, k: string)
  {
    (k in after <==> k in before) && (k in before ==> after[k] == before[k])
  }

  /** Loading touches only the keys the state file names, and never
      `_metadata`, whether or not it gets to the end. */
  lemma {:induction false} LoadSkipsMetadata(session: map<string, Value>, es: seq<(string, Value)>,
                                             files: map<string, Content>, k: string)
    requires k == "_metadata" || forall i :: 0 <= i < |es| ==> es[i].0 != k
    ensures Kept(session, LoadFrom(session, es, files).session, k)
  {
    if es != [] {
      LoadSkipsMetadata(session, es[..|es| - 1], files, k);
    }
  }

  // ----- paths that cannot coincide

  lemma ImagePathInjective(dir: string, name: string, key: string, i: nat, j: nat)
    requires ImagePath(dir, name, key, i) == ImagePath(dir, name, key, j)
    ensures i == j
  {
    var q := ProjectDir(dir, name) + "/images/" + key + "/image_";
    var a, b := IntToString(i), IntToString(j);
    assert ImagePath(dir, name, key, i) == q + a + ".png";
    assert ImagePath(dir, name, key, j) == q + b + ".png";
    assert |a| == |b|;
    assert (q + a + ".png")[|q|..|q| + |a|] == a;
    assert (q + b + ".png")[|q|..|q| + |b|] == b;
    IntToStringInjective(i, j);
  }

  lemma ImageKeysApart(dir: string, name: string, i: nat, j: nat)
    ensures ImagePath(dir, name, "maps_images", i) != ImagePath(dir, name, "user_images", j)
  {
    var d := ProjectDir(dir, name);
    assert ImagePath(dir, name, "maps_images", i)[|d| + 8] == 'm';
    assert ImagePath(dir, name, "user_images", j)[|d| + 8] == 'u';
  }

  lemma ProjectFilesApart(dir: string, name: string, key: string, i: nat)
    ensures StatePath(dir, name) != ImagePath(dir, name, key, i)
    ensures AudioTarget(dir, name) != ImagePath(dir, name, key, i)
    ensures ListPath(dir) != ImagePath(dir, name, key, i)
    ensures ListPath(dir) != StatePath(dir, name)
  {
    var d := ProjectDir(dir, name);
    assert StatePath(dir, name)[|d| + 1] == 's';
    assert AudioTarget(dir, name)[|d| + 1] == 'a';
    assert ImagePath(dir, name, key, i)[|d| + 1] == 'i';
    assert |ImagePath(dir, name, key, i)| > |ListPath(dir)|;
    if |StatePath(dir, name)| == |ListPath(dir)| {
      assert ListPath(dir)[|dir| + 7] == 't';
      assert StatePath(dir, name)[|dir| + 7] == '/';
    }
  }

  // ----- what a save writes

  predicate Agrees(before: map<string, Content>, after: map<string, Content>, p: string)
  {
    (p in after <==> p in before) && (p in before ==> after[p] == before[p])
  }

  lemma {:induction false} WriteImagesFacts(fs: map<string, Content>, dir: string, name: string, key: string, imgs: seq<Image>)
    ensures forall j :: 0 <= j < |imgs| ==>
      ImagePath(dir, name, key, j) in WriteImages(fs, dir, name, key, imgs)
      && WriteImages(fs, dir, name, key, imgs)[ImagePath(dir, name, key, j)] == Picture(imgs[j])
    ensures forall p :: (forall j :: 0 <= j < |imgs| ==> p != ImagePath(dir, name, key, j)) ==>
      Agrees(fs, WriteImages(fs, dir, name, key, imgs), p)
  {
    if imgs != [] {
      var n := |imgs| - 1;
      var init := imgs[..n];
      WriteImagesFacts(fs, dir, name, key, init);
      var before, after := WriteImages(fs, dir, name, key, init), WriteImages(fs, dir, name, key, imgs);
      assert after == before[ImagePath(dir, name, key, n) := Picture(imgs[n])];
      forall j | 0 <= j < n
        ensures ImagePath(dir, name, key, j) != ImagePath(dir, name, key, n)
      {
        if ImagePath(dir, name, key, j) == ImagePath(dir, name, key, n) {
          ImagePathInjective(dir, name, key, j, n);
        }
      }
      forall j | 0 <= j < |imgs|
        ensures ImagePath(dir, name, key, j) in after && after[ImagePath(dir, name, key, j)] == Picture(imgs[j])
      {
        if j < n {
          assert init[j] == imgs[j];
          assert before[ImagePath(dir, name, key, j)] == Picture(init[j]);
        }
      }
      forall p | forall j :: 0 <= j < |imgs| ==> p != ImagePath(dir, name, key, j)
        ensures Agrees(fs, WriteImages(fs, dir, name, key, imgs), p)
      {
        assert p != ImagePath(dir, name, key, n);
        assert forall j :: 0 <= j < n ==> p != ImagePath(dir, name, key, j);
        assert Agrees(fs, WriteImages(fs, dir, name, key, init), p);
      }
    }
  }

  /** The last value an entry list gives key `k`. */
  function Find(es: seq<(string, Value)>, k: string): Option<Value>
  {
    if es == [] then None
    else if es[|es| - 1].0 == k then Some(es[|es| - 1].1)
    else Find(es[..|es| - 1], k)
  }

  predicate DistinctKeys(es: seq<(string, Value)>)
  {
    forall i, j :: 0 <= i < j < |es| ==> es[i].0 != es[j].0
  }

  lemma {:induction false} FindAbsent(es: seq<(string, Value)>, k: string)
    requires forall i :: 0 <= i < |es| ==> es[i].0 != k
    ensures Find(es, k) == None
  {
    if es != [] {
      FindAbsent(es[..|es| - 1], k);
    }
  }

  lemma {:induction false} FindDumped(es: seq<(string, Value)>, k: string)
    ensures Find(DumpAll(es), k) == (if Find(es, k).Some? then Some(Dumped(Find(es, k).value)) else None)
  {
    if es != [] {
      assert DumpAll(es)[..|es| - 1] == DumpAll(es[..|es| - 1]);
      FindDumped(es[..|es| - 1], k);
    }
  }

  /** The value `save_state` stores for a key of the whitelist. */
  function Expected(session: map<string, Value>, fs: map<string, Content>, dir: string, name: string, k: string): Option<Value>
    requires WellTyped(session)
  {
    if k !in session then None
    else if IsImageKey(k) then Some(Strings(ImagePaths(dir, name, k, |session[k].imgs|)))
    else if k == "audio_path" then
      if session[k].s in fs then Some(Str(AudioTarget(dir, name))) else None
    else Some(session[k])
  }

  /** The voice-over is looked at before any image is written. */
  predicate AudioFirst(keys: seq<string>)
  {
    forall i, j :: 0 <= i < j < |keys| && keys[j] == "audio_path" ==> !IsImageKey(keys[i])
  }

  /** A save step adds at most one entry, under its own key. */
  lemma SaveKeyEntries(key: string, session: map<string, Value>, acc: Collected, dir: string, name: string)
    requires WellTyped(session)
    ensures var r := SaveKey(key, session, acc, dir, name);
      r.entries == acc.entries
      || (|r.entries| == |acc.entries| + 1 && r.entries[..|acc.entries|] == acc.entries
          && r.entries[|acc.entries|].0 == key)
  {
  }

  /** A save step leaves what the entries record of other keys alone. */
  lemma FindOtherKey(key: string, session: map<string, Value>, acc: Collected, dir: string, name: string, k: string)
    requires WellTyped(session) && k != key
    ensures Find(SaveKey(key, session, acc, dir, name).entries, k) == Find(acc.entries, k)
  {
    var es := SaveKey(key, session, acc, dir, name).entries;
    SaveKeyEntries(key, session, acc, dir, name);
    if es != acc.entries {
      assert es[..|es| - 1] == acc.entries;
    }
  }

  lemma {:induction false} CollectUntouched(keys: seq<string>, session: map<string, Value>, fs: map<string, Content>,
                                            dir: string, name: string)
    requires WellTyped(session)
    requires forall i :: 0 <= i < |keys| ==> !IsImageKey(keys[i]) && keys[i] != "audio_path"
    ensures Collect(keys, session, fs, dir, name).files == fs
  {
    if keys != [] {
      CollectUntouched(keys[..|keys| - 1], session, fs, dir, name);
    }
  }

  lemma {:induction false} CollectKeys(keys: seq<string>, session: map<string, Value>, fs: map<string, Content>,
                                       dir: string, name: string)
    requires WellTyped(session)
    requires NoDuplicates(keys)
    ensures var c := Collect(keys, session, fs, dir, name);
      DistinctKeys(c.entries) && forall i :: 0 <= i < |c.entries| ==> c.entries[i].0 in keys
  {
    if keys != [] {
      var n := |keys| - 1;
      var init := keys[..n];
      CollectKeys(init, session, fs, dir, name);
      var prev := Collect(init, session, fs, dir, name);
      SaveKeyEntries(keys[n], session, prev, dir, name);
      assert keys[n] !in init;
      assert forall i :: 0 <= i < |prev.entries| ==> prev.entries[i].0 in keys;
    }
  }

  lemma {:induction false} CollectFind(keys: seq<string>, session: map<string, Value>, fs: map<string, Content>,
                                       dir: string, name: string)
    requires WellTyped(session)
    requires NoDuplicates(keys) && AudioFirst(keys)
    ensures forall k :: k in keys ==> Find(Collect(keys, session, fs, dir, name).entries, k) == Expected(session, fs, dir, name, k)
  {
    if keys != [] {
      var n := |keys| - 1;
      var init, key := keys[..n], keys[n];
      assert NoDuplicates(init) && AudioFirst(init);
      CollectFind(init, session, fs, dir, name);
      CollectKeys(init, session, fs, dir, name);
      var prev := Collect(init, session, fs, dir, name);
      var c := Collect(keys, session, fs, dir, name);
      SaveKeyEntries(key, session, prev, dir, name);
      assert key !in init;
      FindAbsent(prev.entries, key);
      if key == "audio_path" {
        assert forall i :: 0 <= i < |init| ==> !IsImageKey(init[i]) && init[i] != "audio_path";
        CollectUntouched(init, session, fs, dir, name);
      }
      forall k | k in keys
        ensures Find(c.entries, k) == Expected(session, fs, dir, name, k)
      {
        if k != key {
          assert k in init;
          FindOtherKey(key, session, prev, dir, name, k);
        }
      }
    }
  }

  lemma {:induction false} CollectPictures(keys: seq<string>, session: map<string, Value>, fs: map<string, Content>,
                                           dir: string, name: string)
    requires WellTyped(session)
    requires NoDuplicates(keys)
    ensures var c := Collect(keys, session, fs, dir, name);
      forall k, j :: k in keys && k in session && IsImageKey(k) && 0 <= j < |session[k].imgs| ==>
        ImagePath(dir, name, k, j) in c.files && c.files[ImagePath(dir, name, k, j)] == Picture(session[k].imgs[j])
  {
    if keys != [] {
      var n := |keys| - 1;
      var init, key := keys[..n], keys[n];
      CollectPictures(init, session, fs, dir, name);
      var prev := Collect(init, session, fs, dir, name);
      var c := Collect(keys, session, fs, dir, name);
      if key in session && IsImageKey(key) {
        WriteImagesFacts(prev.files, dir, name, key, session[key].imgs);
      }
      assert c == SaveKey(key, session, prev, dir, name);
      forall k, j | k in keys && k in session && IsImageKey(k) && 0 <= j < |session[k].imgs|
        ensures ImagePath(dir, name, k, j) in c.files && c.files[ImagePath(dir, name, k, j)] == Picture(session[k].imgs[j])
      {
        var path := ImagePath(dir, name, k, j);
        if k != key {
          assert k in init;
          assert path in prev.files && prev.files[path] == Picture(session[k].imgs[j]);
          ProjectFilesApart(dir, name, k, j);
          if key in session && IsImageKey(key) {
            forall j' | 0 <= j' < |session[key].imgs|
              ensures path != ImagePath(dir, name, key, j')
            {
              if k == "maps_images" {
                ImageKeysApart(dir, name, j, j');
              } else {
                ImageKeysApart(dir, name, j', j);
              }
            }
            assert Agrees(prev.files, c.files, path);
          } else if key in session && key == "audio_path" {
            assert c.files == prev.files || c.files == prev.files[AudioTarget(dir, name) := CopiedAudio(prev.files, session[key].s, AudioTarget(dir, name))];
          } else {
            assert c.files == prev.files;
          }
        }
      }
    }
  }

  lemma KeysToSaveFacts()
    ensures NoDuplicates(KeysToSave) && AudioFirst(KeysToSave) && "_metadata" !in KeysToSave
  {
  }

  /** Reading back the pictures a save wrote. */
  lemma {:induction false} LoadImagesWritten(files: map<string, Content>, dir: string, name: string, key: string,
                                             imgs: seq<Image>, n: nat)
    requires n <= |imgs|
    requires forall j :: 0 <= j < |imgs| ==>
      ImagePath(dir, name, key, j) in files && files[ImagePath(dir, name, key, j)] == Picture(imgs[j])
    ensures LoadImages(ImagePaths(dir, name, key, n), files) == Some(imgs[..n])
  {
    if n > 0 {
      var ps := ImagePaths(dir, name, key, n);
      ImagePathsSnoc(dir, name, key, n - 1);
      assert ps[..n - 1] == ImagePaths(dir, name, key, n - 1);
      assert ps[n - 1] == ImagePath(dir, name, key, n - 1);
      LoadImagesWritten(files, dir, name, key, imgs, n - 1);
      PrefixSnoc(imgs, n);
    }
  }

  predicate Restoring(before: map<string, Value>, after: map<string, Value>, k: string, r: Option<Value>)
  {
    match r
    case None => Kept(before, after, k)
    case Some(v) => k in after && after[k] == v
  }

  /** A state file none of whose entries raises is loaded to the end, and
      each key ends up as its entry says. */
  lemma {:induction false} LoadFromFacts(session: map<string, Value>, es: seq<(string, Value)>, files: map<string, Content>)
    requires DistinctKeys(es)
    requires forall i :: 0 <= i < |es| ==> !EntryFails(es[i], files)
    ensures LoadFrom(session, es, files).ok
    ensures forall k :: Find(es, k).None? ==> Kept(session, LoadFrom(session, es, files).session, k)
    ensures forall k :: Find(es, k).Some? ==>
      !EntryFails((k, Find(es, k).value), files)
      && Restoring(session, LoadFrom(session, es, files).session, k, Restored((k, Find(es, k).value), files))
  {
    if es != [] {
      var n := |es| - 1;
      var e := es[n];
      assert DistinctKeys(es[..n]);
      LoadFromFacts(session, es[..n], files);
      assert forall i :: 0 <= i < n ==> es[..n][i].0 != e.0;
      FindAbsent(es[..n], e.0);
    }
  }

  /** The state data a save writes. */
  function SavedData(files: map<string, Content>, session: map<string, Value>, dir: string, name: string,
                     savedDate: string): seq<(string, Value)>
    requires WellTyped(session)
  {
    DumpAll(Collect(KeysToSave, session, files, dir, name).entries + [("_metadata", Metadata(savedDate, "1.0"))])
  }

  /** After a save that gets past the refusal and writes its state file, the
      store holds that file and every picture of the session. */
  lemma SavedFiles(dir: string, projects: seq<string>, files: map<string, Content>, saved: map<string, Value>,
                   name: string, overwrite: bool, savedDate: string, failure: SaveFailure)
    requires WellTyped(saved)
    requires overwrite || name !in projects
    requires failure != StateWriteFails
    ensures var r := Save(dir, projects, files, saved, name, overwrite, savedDate, failure);
      StatePath(dir, name) in r.files
      && r.files[StatePath(dir, name)] == StateFile(SavedData(files, saved, dir, name, savedDate))
      && forall k, j :: k in KeysToSave && k in saved && IsImageKey(k) && 0 <= j < |saved[k].imgs| ==>
           ImagePath(dir, name, k, j) in r.files && r.files[ImagePath(dir, name, k, j)] == Picture(saved[k].imgs[j])
  {
    KeysToSaveFacts();
    CollectPictures(KeysToSave, saved, files, dir, name);
    ProjectFilesApart(dir, name, "", 0);
    var r := Save(dir, projects, files, saved, name, overwrite, savedDate, failure);
    forall k, j | k in KeysToSave && k in saved && IsImageKey(k) && 0 <= j < |saved[k].imgs|
      ensures ImagePath(dir, name, k, j) in r.files && r.files[ImagePath(dir, name, k, j)] == Picture(saved[k].imgs[j])
    {
      ProjectFilesApart(dir, name, k, j);
    }
  }

  /** The state data has distinct keys and what it records of each
      whitelisted key is the stored value as JSON writes it. */
  lemma SavedDataFind(files: map<string, Content>, saved: map<string, Value>, dir: string, name: string, savedDate: string)
    requires WellTyped(saved)
    ensures var data := SavedData(files, saved, dir, name, savedDate);
      DistinctKeys(data)
      && (forall k :: k in KeysToSave ==>
            Find(data, k) == (if Expected(saved, files, dir, name, k).Some?
                              then Some(Dumped(Expected(saved, files, dir, name, k).value)) else None))
      && (forall k :: k !in KeysToSave ==>
            Find(data, k) == (if k == "_metadata" then Some(Metadata(savedDate, "1.0")) else None))
  {
    KeysToSaveFacts();
    SavedDataDumps(files, saved, dir, name, savedDate);
    CollectKeys(KeysToSave, saved, files, dir, name);
    CollectFind(KeysToSave, saved, files, dir, name);
    var c := Collect(KeysToSave, saved, files, dir, name);
    var es := c.entries + [("_metadata", Metadata(savedDate, "1.0"))];
    assert es[..|es| - 1] == c.entries;
    forall k | k !in KeysToSave && k != "_metadata"
      ensures Find(c.entries, k) == None
    {
      FindAbsent(c.entries, k);
    }
  }

  /** The entries collected by a save, with `_metadata` after them, have
      distinct keys, and the state data finds under each key what they
      hold, as JSON writes it. */
  lemma SavedDataDumps(files: map<string, Content>, saved: map<string, Value>, dir: string, name: string, savedDate: string)
    requires WellTyped(saved)
    ensures var es := Collect(KeysToSave, saved, files, dir, name).entries + [("_metadata", Metadata(savedDate, "1.0"))];
      var data := SavedData(files, saved, dir, name, savedDate);
      DistinctKeys(data)
      && forall k :: Find(data, k) == (if Find(es, k).Some? then Some(Dumped(Find(es, k).value)) else None)
  {
    KeysToSaveFacts();
    CollectKeys(KeysToSave, saved, files, dir, name);
    var c := Collect(KeysToSave, saved, files, dir, name);
    var es := c.entries + [("_metadata", Metadata(savedDate, "1.0"))];
    assert es[..|es| - 1] == c.entries;
    assert DistinctKeys(es);
    forall k
      ensures Find(SavedData(files, saved, dir, name, savedDate), k) == (if Find(es, k).Some? then Some(Dumped(Find(es, k).value)) else None)
    {
      FindDumped(es, k);
    }
  }

  /** Saving and then loading the same project gives back every whitelisted
      value the session held: image lists (when not empty) as the same
      images, the voice-over (when its file existed) as the copy's path,
      anything else as JSON wrote it. Every other key, `_metadata`
      included, is left as the loading session had it. */
  lemma SaveThenLoad(dir: string, projects: seq<string>, files: map<string, Content>, saved: map<string, Value>,
                     current: map<string, Value>, name: string, overwrite: bool, savedDate: string, failure: SaveFailure)
    requires WellTyped(saved)
    requires overwrite || name !in projects
    requires failure != StateWriteFails
    ensures var m := Load(current, Save(dir, projects, files, saved, name, overwrite, savedDate, failure).files, dir, name);
      m.ok
      && (forall k :: k in KeysToSave && k in saved && IsImageKey(k) && saved[k].imgs != [] ==>
            k in m.session && m.session[k] == saved[k])
      && (forall k :: k in KeysToSave && k in saved && !IsImageKey(k) && k != "audio_path" ==>
            k in m.session && m.session[k] == Dumped(saved[k]))
      && ("audio_path" in saved && saved["audio_path"].s in files ==>
            "audio_path" in m.session && m.session["audio_path"] == Str(AudioTarget(dir, name)))
      && (forall k :: (k !in KeysToSave || k !in saved || (IsImageKey(k) && saved[k].imgs == [])
                       || (k == "audio_path" && saved[k].s !in files)) ==> Kept(current, m.session, k))
  {
    var r := Save(dir, projects, files, saved, name, overwrite, savedDate, failure);
    var data := SavedData(files, saved, dir, name, savedDate);
    SavedStateReadable(dir, projects, files, saved, name, overwrite, savedDate, failure);
    SavedDataFind(files, saved, dir, name, savedDate);
    LoadedSession(current, data, r.files, saved, files, dir, name, savedDate, KeysToSave);
  }

  /** The voice-over the loop leaves in the store: the copy of the source,
      or an empty file when the source is the project's own copy. */
  lemma {:induction false} CollectAudio(keys: seq<string>, session: map<string, Value>, fs: map<string, Content>,
                                        dir: string, name: string)
    requires WellTyped(session)
    requires NoDuplicates(keys) && AudioFirst(keys)
    requires "audio_path" in keys && "audio_path" in session && session["audio_path"].s in fs
    ensures var c := Collect(keys, session, fs, dir, name);
      AudioTarget(dir, name) in c.files
      && c.files[AudioTarget(dir, name)] == CopiedAudio(fs, session["audio_path"].s, AudioTarget(dir, name))
  {
    var n := |keys| - 1;
    var init, key := keys[..n], keys[n];
    var prev := Collect(init, session, fs, dir, name);
    var c := Collect(keys, session, fs, dir, name);
    assert c == SaveKey(key, session, prev, dir, name);
    var t := AudioTarget(dir, name);
    if key == "audio_path" {
      assert forall i :: 0 <= i < |init| ==> !IsImageKey(init[i]) && init[i] != "audio_path";
      CollectUntouched(init, session, fs, dir, name);
    } else {
      assert "audio_path" in init;
      assert NoDuplicates(init) && AudioFirst(init);
      CollectAudio(init, session, fs, dir, name);
      if key in session && IsImageKey(key) {
        WriteImagesFacts(prev.files, dir, name, key, session[key].imgs);
        forall j | 0 <= j < |session[key].imgs|
          ensures t != ImagePath(dir, name, key, j)
        {
          ProjectFilesApart(dir, name, key, j);
        }
        assert Agrees(prev.files, c.files, t);
      }
    }
  }

  /** A save that is not refused writes the voice-over copy, and it is empty
      exactly when the session's voice-over already is that copy; the state
      file and the list file are elsewhere. */
  lemma SavedAudio(dir: string, projects: seq<string>, files: map<string, Content>, session: map<string, Value>,
                   name: string, overwrite: bool, savedDate: string, failure: SaveFailure)
    requires WellTyped(session)
    requires overwrite || name !in projects
    requires "audio_path" in session && session["audio_path"].s in files
    ensures var r := Save(dir, projects, files, session, name, overwrite, savedDate, failure);
      var src, t := session["audio_path"].s, AudioTarget(dir, name);
      t in r.files && (r.files[t] == Empty <==> src == t || files[src] == Empty)
      && (src != t ==> r.files[t] == files[src])
  {
    KeysToSaveFacts();
    CollectAudio(KeysToSave, session, files, dir, name);
    RecordsApart(dir, name);
  }

  /** Saving a project, loading it back and saving it again under the same
      name empties its voice-over: the loaded session names the project's
      own copy, and the second save truncates that file before reading it. */
  lemma ResaveEmptiesAudio(dir: string, projects: seq<string>, files: map<string, Content>, saved: map<string, Value>,
                           current: map<string, Value>, name: string, overwrite: bool, savedDate: string,
                           failure: SaveFailure, laterDate: string, laterFailure: SaveFailure)
    requires WellTyped(saved) && WellTyped(current)
    requires overwrite || name !in projects
    requires failure != StateWriteFails
    requires "audio_path" in saved && saved["audio_path"].s in files
    ensures var first := Save(dir, projects, files, saved, name, overwrite, savedDate, failure);
      var m := Load(current, first.files, dir, name);
      WellTyped(m.session)
      && var second := Save(dir, first.projects, first.files, m.session, name, true, laterDate, laterFailure);
      AudioTarget(dir, name) in second.files && second.files[AudioTarget(dir, name)] == Empty
  {
    var first := Save(dir, projects, files, saved, name, overwrite, savedDate, failure);
    var m := Load(current, first.files, dir, name);
    SaveThenLoad(dir, projects, files, saved, current, name, overwrite, savedDate, failure);
    KeysToSaveFacts();
    assert "maps_images" in KeysToSave && "user_images" in KeysToSave;
    SavedAudio(dir, projects, files, saved, name, overwrite, savedDate, failure);
    assert WellTyped(m.session);
    SavedAudio(dir, first.projects, first.files, m.session, name, true, laterDate, laterFailure);
  }

  /** How the loop of `load_state` ends on state data with the shape a save
      gives it. */
  lemma LoadedSession(current: map<string, Value>, data: seq<(string, Value)>, stored: map<string, Content>,
                      saved: map<string, Value>, files: map<string, Content>, dir: string, name: string, savedDate: string,
                      keys: seq<string>)
    requires WellTyped(saved)
    requires "audio_path" in keys && "_metadata" !in keys
    requires DistinctKeys(data)
    requires forall i :: 0 <= i < |data| ==> !EntryFails(data[i], stored)
    requires forall k :: k in keys ==>
      Find(data, k) == (if Expected(saved, files, dir, name, k).Some?
                        then Some(Dumped(Expected(saved, files, dir, name, k).value)) else None)
    requires forall k :: k !in keys ==>
      Find(data, k) == (if k == "_metadata" then Some(Metadata(savedDate, "1.0")) else None)
    requires forall k :: k in keys && k in saved && IsImageKey(k) ==>
      LoadImages(ImagePaths(dir, name, k, |saved[k].imgs|), stored) == Some(saved[k].imgs)
    ensures var m := LoadFrom(current, data, stored);
      m.ok
      && (forall k :: k in keys && k in saved && IsImageKey(k) && saved[k].imgs != [] ==>
            k in m.session && m.session[k] == saved[k])
      && (forall k :: k in keys && k in saved && !IsImageKey(k) && k != "audio_path" ==>
            k in m.session && m.session[k] == Dumped(saved[k]))
      && ("audio_path" in saved && saved["audio_path"].s in files ==>
            "audio_path" in m.session && m.session["audio_path"] == Str(AudioTarget(dir, name)))
      && (forall k :: (k !in keys || k !in saved || (IsImageKey(k) && saved[k].imgs == [])
                       || (k == "audio_path" && saved[k].s !in files)) ==> Kept(current, m.session, k))
  {
    LoadFromFacts(current, data, stored);
    var m := LoadFrom(current, data, stored);
    forall k | k in keys
      ensures k in saved && IsImageKey(k) && saved[k].imgs != [] ==> k in m.session && m.session[k] == saved[k]
      ensures k in saved && !IsImageKey(k) && k != "audio_path" ==> k in m.session && m.session[k] == Dumped(saved[k])
      ensures k in saved && k == "audio_path" && saved[k].s in files ==> k in m.session && m.session[k] == Str(AudioTarget(dir, name))
      ensures k !in saved || (IsImageKey(k) && saved[k].imgs == []) || (k == "audio_path" && saved[k].s !in files) ==>
        Kept(current, m.session, k)
    {
      LoadedKey(current, m.session, stored, saved, files, dir, name, k, Find(data, k));
    }
    forall k | k !in keys
      ensures Kept(current, m.session, k)
    {
      if k == "_metadata" {
        assert Restored((k, Find(data, k).value), stored).None?;
      }
    }
  }

  /** What loading leaves under one saved key, given the entry found for it. */
  lemma LoadedKey(current: map<string, Value>, m: map<string, Value>, stored: map<string, Content>,
                  saved: map<string, Value>, files: map<string, Content>, dir: string, name: string, k: string,
                  found: Option<Value>)
    requires WellTyped(saved) && k != "_metadata"
    requires found == (if Expected(saved, files, dir, name, k).Some?
                       then Some(Dumped(Expected(saved, files, dir, name, k).value)) else None)
    requires found.None? ==> Kept(current, m, k)
    requires found.Some? ==> !EntryFails((k, found.value), stored) && Restoring(current, m, k, Restored((k, found.value), stored))
    requires k in saved && IsImageKey(k) ==> LoadImages(ImagePaths(dir, name, k, |saved[k].imgs|), stored) == Some(saved[k].imgs)
    ensures k in saved && IsImageKey(k) && saved[k].imgs != [] ==> k in m && m[k] == saved[k]
    ensures k in saved && !IsImageKey(k) && k != "audio_path" ==> k in m && m[k] == Dumped(saved[k])
    ensures k in saved && k == "audio_path" && saved[k].s in files ==> k in m && m[k] == Str(AudioTarget(dir, name))
    ensures k !in saved || (IsImageKey(k) && saved[k].imgs == []) || (k == "audio_path" && saved[k].s !in files) ==>
      Kept(current, m, k)
  {
  }

  /** The state file a save wrote is there and reading it never raises. */
  lemma SavedStateReadable(dir: string, projects: seq<string>, files: map<string, Content>, saved: map<string, Value>,
                           name: string, overwrite: bool, savedDate: string, failure: SaveFailure)
    requires WellTyped(saved)
    requires overwrite || name !in projects
    requires failure != StateWriteFails
    ensures var r := Save(dir, projects, files, saved, name, overwrite, savedDate, failure);
      var data := SavedData(files, saved, dir, name, savedDate);
      StatePath(dir, name) in r.files && r.files[StatePath(dir, name)] == StateFile(data)
      && (forall k :: k in KeysToSave && k in saved && IsImageKey(k) ==>
            LoadImages(ImagePaths(dir, name, k, |saved[k].imgs|), r.files) == Some(saved[k].imgs))
      && forall i :: 0 <= i < |data| ==> !EntryFails(data[i], r.files)
  {
    var r := Save(dir, projects, files, saved, name, overwrite, savedDate, failure);
    var data := SavedData(files, saved, dir, name, savedDate);
    SavedFiles(dir, projects, files, saved, name, overwrite, savedDate, failure);
    SavedDataFind(files, saved, dir, name, savedDate);
    forall k | k in KeysToSave && k in saved && IsImageKey(k)
      ensures LoadImages(ImagePaths(dir, name, k, |saved[k].imgs|), r.files) == Some(saved[k].imgs)
    {
      LoadImagesWritten(r.files, dir, name, k, saved[k].imgs, |saved[k].imgs|);
      assert saved[k].imgs[..|saved[k].imgs|] == saved[k].imgs;
    }
    forall i | 0 <= i < |data|
      ensures !EntryFails(data[i], r.files)
    {
      FindAbsentAfter(data, i);
      EntryReadable(data[i], r.files, saved, files, dir, name, savedDate);
    }
  }

  /** An entry of the state data does not make loading raise. */
  lemma EntryReadable(e: (string, Value), stored: map<string, Content>, saved: map<string, Value>,
                      files: map<string, Content>, dir: string, name: string, savedDate: string)
    requires WellTyped(saved)
    requires e.0 in KeysToSave ==>
      Some(e.1) == (if Expected(saved, files, dir, name, e.0).Some?
                    then Some(Dumped(Expected(saved, files, dir, name, e.0).value)) else None)
    requires e.0 !in KeysToSave ==> Some(e.1) == (if e.0 == "_metadata" then Some(Metadata(savedDate, "1.0")) else None)
    requires e.0 in KeysToSave && e.0 in saved && IsImageKey(e.0) ==>
      LoadImages(ImagePaths(dir, name, e.0, |saved[e.0].imgs|), stored) == Some(saved[e.0].imgs)
    ensures !EntryFails(e, stored)
  {
  }

  /** In a list with distinct keys nothing after entry `i` has its key, so
      the last value for that key is entry `i`'s. */
  lemma {:induction false} FindAbsentAfter(es: seq<(string, Value)>, i: nat)
    requires DistinctKeys(es)
    requires i < |es|
    ensures Find(es, es[i].0) == Some(es[i].1)
    decreases |es|
  {
    if i < |es| - 1 {
      assert DistinctKeys(es[..|es| - 1]);
      assert es[..|es| - 1][i] == es[i];
      FindAbsentAfter(es[..|es| - 1], i);
    }
  }

  /** `get_project_data` followed by `set_project_data` on another session
      overrides its whitelisted keys with the first session's and keeps the
      rest. */
  lemma ProjectDataTransfer(source: map<string, Value>, target: map<string, Value>)
    ensures ProjectData(target + ProjectData(source)) == ProjectData(target) + ProjectData(source)
  {
  }
}
