# emlak-web in Dafny

A model of the deciding logic of emlak-web, a real-estate video generator.
It takes an address, fetches satellite and street-view pictures, narrates a property description and renders a slideshow video from them.
Most of the application is glue around map, text, speech, image and video libraries.
What those libraries compute (pixels, audio samples, HTTP replies, codecs) is an opaque value or an explicit parameter here.
What the application itself decides is modelled and proved.

| file | module | models |
|---|---|---|
| `base.dfy` | `Base` | `Option`, `Result`, Python's `int()` on a float (truncation toward zero) and decimal printing of integers |
| `frame_effects.dfy` | `FrameEffects` | `create_frame_effect`: zoom crops and pan shifts over `numpy.linspace` |
| `video_render.dfy` | `VideoRender` | `generate_video`: the quality table, the frame budget, transition dispatch, the codec probe and the FFmpeg fallback |
| `stabilization.dfy` | `Stabilization` | `stabilize_video_sequence` and `smooth_trajectory`, in both copies |
| `task_table.dfy` | `TaskTable` | the module-global task status table of `utils/background_tasks.py` and the status sequence of a video task |
| `task_pool.dfy` | `TaskPool` | the earlier task manager, with name-and-second ids, clamped progress, cancel, timeout and purge |
| `memo_cache.dfy` | `MemoCache` | `cached_data`: the key string, the memory and disk lookups with a TTL, and the two clear functions |
| `state_manager.dfy` | `StateManagement` | `StateManager`: save, load and delete projects, the project list and the session's project data |
| `wizard.dfy` | `WizardNavigation` | `Wizard`: the namespaced step index, navigation, progress and indicators |
| `wizard_controller.dfy` | `WizardFlow` | `WizardController`: four steps, their requirements and the navigation buttons |
| `app_controllers.dfy` | `AppFlow` | the application's templates, task-status dispatch, bordered-image insertion, requirement check, render input and five-step wizard |
| `image_organizer.dfy` | `ImageOrganizer` | `reorder_images` and the sorting buttons of `create_image_arranger` |
| `overlay.dfy` | `Overlay` | text and logo placement and the per-frame overlay loop |
| `borders.dfy` | `PropertyBorders` | hex colour parsing, border rectangles, polygon guards and image saving |
| `image_fetch.dfy` | `ImageFetch` | the API-key guard and request centring of the fetchers, response handling and the detection filter |
| `music.dfy` | `MusicLibrary` | the music catalogue, library start-up, `download_music` and `mix_audio` |
| `realestate_engine.dfy` | `RealEstateEngine` | the real-estate engine's own steps: script, picture time slots, editing plans and `test_run` |
| `drone_video.dfy` | `DroneVideo` | the notebook's drone-video generator: headings, fetch loops, cross-fades, drone effects, the frame timeline and when rendering raises |
| `enhance_integration.dfy` | `EnhanceIntegration` | the shared deep enhancer, the enhancement dispatch and the batch loop with progress reports |

Several files under `old_streamlit/` are identical to their twins under `modules/` and `utils/`.
One model serves both copies; the table below cites each copy through the members that state its properties.

Where the code keeps changing state, the model does too.
The background task tables, the cache, the project store, the sessions, the wizards, the engine and the enhancer singleton are classes whose methods modify their fields.
The loops and step-by-step updates of the source are methods, with loop invariants where the source loops. These cover the frame effects, the codec probe, the trajectory fill and smoothing, the requirement check, key building, the score lists, the mix and the batch.
Each is proved against a specification function whose properties are then proved as lemmas.
Clocks, file existence, decoding and encoding outcomes and replies from the network are parameters of the operations that depend on them.

## Model

| member | source | states |
|---|---|---|
| FrameEffects.Linspace | modules/video/video_generation.py:18 | `numpy.linspace` with the end point: exactly `n` values, value `k` being `LinAt(start, stop, n, k)` |
| FrameEffects.LinAtBounds | modules/video/video_generation.py:31 | every linspace value lies between its start and stop |
| FrameEffects.LinAtMonotone | modules/video/video_generation.py:31-33 | linspace values never decrease along the sequence |
| FrameEffects.ZoomFactorsRange | modules/video/video_generation.py:18 | every zoom factor lies in [1.0, 1.3] |
| FrameEffects.ZoomEffect | modules/video/video_generation.py:17-27 | the zoom loop appends exactly the guarded centred crops of `FrameEffect` |
| FrameEffects.PanEffect | modules/video/video_generation.py:29-42 | the pan loop appends exactly the translated frames of `FrameEffect` |
| FrameEffects.CreateFrameEffect | modules/video/video_generation.py:11-44 | zoom, pan or no frames according to the effect type, equal to `FrameEffect` |
| FrameEffects.ZoomFramesAtMost | modules/video/video_generation.py:20-27 | the guard only drops frames: zoom returns at most one frame per factor |
| FrameEffects.ZoomFramesCentredInside | modules/video/video_generation.py:21-24 | every zoom frame kept is a centred crop, `y1 = (h - new_h) // 2` and `x1 = (w - new_w) // 2`, lying inside the image |
| FrameEffects.ZoomKeepsEveryFactor | modules/video/video_generation.py:20-27 | on an image of at least 2x2 pixels no factor in [1, 1.3] is dropped |
| FrameEffects.ZoomOutIsWholeImage | modules/video/video_generation.py:18-19 | with `zoom_in=False` every frame is the whole image |
| FrameEffects.PanShiftBounds | modules/video/video_generation.py:29-42 | a pan has exactly `n` frames, each shift an integer in [0, max_shift] along one axis only, with max_shift `w // 4` horizontally and `h // 4` vertically |
| FrameEffects.PanShiftMonotone | modules/video/video_generation.py:31-33 | shifts never increase for "right"/"down" and never decrease for "left"/"up" |
| FrameEffects.NoFrames | modules/video/video_generation.py:15-17 | an unknown effect type or zero frames gives no frames |
| FrameEffects.EffectLength | modules/video/video_generation.py:17-42 | zoom and pan on an image of at least 2x2 pixels return exactly `n` frames |
| VideoRender.QualitySettings | modules/video/video_generation.py:88-93 | "high" gives 1920x1080 at 4000k, any other value 1280x720 at 2000k; both are 16:9 |
| VideoRender.Resize | modules/video/video_generation.py:59-61 | resizing keeps the picture and gives it the target size |
| VideoRender.ImageCount | modules/video/video_generation.py:109 | `min(len(images), 8)`: at most eight and at most the images given |
| VideoRender.FrameBudget | modules/video/video_generation.py:109-110 | `int(duration * fps / n)` per image: the images together use at most the audio's frames and lose fewer than one per image |
| VideoRender.FirstCodecChoice | modules/video/video_generation.py:116-133 | the chosen codec opens and no earlier candidate opens; none is chosen exactly when none opens |
| VideoRender.ProbeCodecs | modules/video/video_generation.py:116-134 | the probe loop tries mp4v, avc1, XVID, H264 in order and stops at the first that opens |
| VideoRender.ImageFramesCount | modules/video/video_generation.py:159-170 | each of the three transition styles gives an image exactly its frame budget, the combined one splitting it into `budget // 2` zoom and the rest pan frames |
| VideoRender.WrittenFramesCount | modules/video/video_generation.py:149-174 | the writer receives exactly `budget` frames per processed image |
| VideoRender.Stills | modules/video/video_generation.py:254-272 | the fallback keeps every image, with no limit of eight, in order, resized to the target size |
| VideoRender.EffectFramesFor | modules/video/video_generation.py:159-170 | the per-image dispatch: zoom in on even indices for "Yakınlaşma", the pan direction `idx % 4` for "Kaydırma", otherwise a half zoom and a half right/left pan |
| VideoRender.GenerateVideo | modules/video/video_generation.py:84-214 | `generate_video` as a whole: its outcome is `Render` of the inputs and the environment |
| VideoRender.EncodedVideo | modules/video/video_generation.py:109-206 | a finished primary render used the first opening codec, only the first `min(n, 8)` images and the rounded-down budget, and is saved as `final_video.mp4` in its temporary directory |
| VideoRender.WrittenFramesSources | modules/video/video_generation.py:149-156 | every written frame comes from one of the first `min(n, 8)` images, resized to the target size |
| VideoRender.EffectSource | modules/video/video_generation.py:156-170 | every effect frame of an image shows that image |
| VideoRender.FallbackRoute | modules/video/video_generation.py:135-139 | the fallback runs exactly when the audio, the image count, the codec probe or the encoding fails; it is called twice when no codec opens and the fallback raises |
| VideoRender.Fallback | modules/video/video_generation.py:216-305 | the fallback raises for no images, missing audio or a failed encode, and otherwise returns its saved video's path |
| VideoRender.NoImagesRaises | modules/video/video_generation.py:109-110 | with no images the primary route divides by zero and the fallback has nothing to assemble, so the call raises after one fallback run |
| Stabilization.WindowBounds | modules/video/advanced_stabilization.py:128-129 | the window `[max(0, i - w // 2), min(len, i + w // 2 + 1))` is non-empty, contains `i` and lies within the trajectory |
| Stabilization.SmoothTrajectory | modules/video/advanced_stabilization.py:120-134 | the in-place loop leaves row `i` as the mean of the original rows in its window, and a short trajectory as a copy |
| Stabilization.ConstantIsFixedPoint | modules/video/advanced_stabilization.py:127-132 | a constant trajectory is left unchanged by smoothing |
| Stabilization.FillTrajectory | modules/video/advanced_stabilization.py:39-73 | the trajectory loop fills one row per pair of frames, as `TrajectoryOf` gives |
| Stabilization.RowRules | modules/video/advanced_stabilization.py:51-69 | too few tracked points leaves a zero row, a failed estimate copies the previous row (zeros for the first), a rigid estimate is stored |
| Stabilization.StabilizeVideoSequence | modules/video/advanced_stabilization.py:7-107 | the guards, the trajectory loop, the smoothing and the output list give `Stabilized` |
| Stabilization.StabilizedShape | modules/video/advanced_stabilization.py:79-100 | the output has the input's length, frame 0 is untouched, and frame `i` is warped by `smoothed[i-1] - trajectory[i-1]` |
| Stabilization.Smoothed | old_streamlit/modules/video/advanced_stabilization.py:120-124 | smoothing keeps the length and returns a copy when there are at most `window_size` rows |
| Stabilization.PassThrough | old_streamlit/modules/video/advanced_stabilization.py:18-33 | fewer than 3 frames, or fewer than 10 feature points, return the input unchanged |
| Stabilization.SteadyMotionIsKept | old_streamlit/modules/video/advanced_stabilization.py:127-132 | a camera moving steadily gets a zero correction on every frame |
| TaskTable.Apply | utils/background_tasks.py:89-94 | a status patch overwrites exactly the keys it passes and keeps every other field |
| TaskTable.Purged | utils/background_tasks.py:96-105 | the purged table keeps exactly the records that are not finished-and-older-than `max_age` (with a truthy completion time), unchanged |
| TaskTable.ApplyIdempotent | utils/background_tasks.py:92-94 | applying the same patch twice is applying it once |
| TaskTable.PurgeProperties | utils/background_tasks.py:103-104 | unfinished records, and finished ones without a usable completion time, survive every purge; purging twice is purging once |
| TaskTable.StatusTable.constructor | utils/background_tasks.py:10 | the table starts empty |
| TaskTable.StatusTable.StartTask | utils/background_tasks.py:29-44 | registers a 'starting' record with progress 0 and no result, error or completion time under the fresh id, and returns that id |
| TaskTable.StatusTable.GetTaskStatus | utils/background_tasks.py:84-87 | the record of a known id, None for an unknown one |
| TaskTable.StatusTable.UpdateTaskStatus | utils/background_tasks.py:89-94 | an existing record is patched; an unknown id changes nothing |
| TaskTable.StatusTable.Finish | utils/background_tasks.py:66-82 | success writes 'completed', the result, progress 100 and the completion time; failure writes 'failed', the error, its details and the completion time, keeping the result None |
| TaskTable.StatusTable.RunTask | utils/background_tasks.py:56-82 | `_run_task`: 'running' at 5%, then the completion or the failure record |
| TaskTable.StatusTable.CleanupCompletedTasks | utils/background_tasks.py:96-105 | the table becomes `Purged` of the old one; nothing else changes |
| TaskTable.GenerateVideoInBackground | utils/background_tasks.py:107-185 | the video task writes 'preparing' 10, 'processing_images' 20, 'generating_video' 40, then 'finalizing' 95 and returns the path, or writes 'failed' and re-raises |
| TaskTable.RunVideoTask | utils/background_tasks.py:16-82 | a whole video task ends 'completed' with the path or 'failed' with the error, having logged `VideoTaskLog` |
| TaskTable.VideoTaskProgressMonotone | utils/background_tasks.py:129-170 | along a video task progress never decreases; it ends 'completed' at 100, or 'failed' written twice (by the background task and by the runner) |
| TaskPool.TaskIdSameSecond | old_streamlit/utils/background_tasks.py:46 | two starts with the same name get the same id exactly when they fall in the same whole second |
| TaskPool.ClampPercent | old_streamlit/utils/background_tasks.py:101 | `min(100, max(0, p * 100))` lies in [0, 100], equals `p * 100` for p in [0, 1] and saturates outside |
| TaskPool.Purged | old_streamlit/utils/background_tasks.py:177-188 | keeps exactly the records that are not finished-and-older-than `max_age` from their start time, unchanged |
| TaskPool.TaskManager.constructor | old_streamlit/utils/background_tasks.py:22-24 | a manager starts with no tasks |
| TaskPool.TaskManager.StartTask | old_streamlit/utils/background_tasks.py:42-59 | returns the name-and-second id and (re)places a 'starting' record with progress 0, no result or error, the start time and the timeout under it |
| TaskPool.TaskManager.MarkRunning | old_streamlit/utils/background_tasks.py:92-94 | the runner sets 'running' and its message on a present record |
| TaskPool.TaskManager.ReportProgress | old_streamlit/utils/background_tasks.py:97-104 | the callback stores the clamped percentage, replaces the message only when one is given, and ignores purged ids |
| TaskPool.TaskManager.Complete | old_streamlit/utils/background_tasks.py:114-119 | completion writes 'completed', the result and 100 only for a present id, with no status check |
| TaskPool.TaskManager.Fail | old_streamlit/utils/background_tasks.py:130-135 | failure writes 'failed', the error, its details and the message only for a present id |
| TaskPool.TaskManager.TimeoutFired | old_streamlit/utils/background_tasks.py:65-73 | only a 'running' task whose future is not done becomes 'failed' with the timeout message; otherwise nothing changes |
| TaskPool.TaskManager.GetTaskStatus | old_streamlit/utils/background_tasks.py:140-151 | the record of a known id, None for an unknown one |
| TaskPool.TaskManager.CancelTask | old_streamlit/utils/background_tasks.py:153-168 | returns True and marks 'canceled' exactly when the background task is 'running'; otherwise nothing changes |
| TaskPool.TaskManager.CleanupCompletedTasks | old_streamlit/utils/background_tasks.py:170-188 | the two-pass purge leaves `Purged` of the old table |
| TaskPool.PurgeKeepsLiveTasks | old_streamlit/utils/background_tasks.py:182-185 | a starting or running task, or a finished one younger than the limit, survives the purge unchanged |
| MemoCache.SortByKeyFacts | utils/cache_utils.py:27 | `sorted(kwargs.items())` keeps exactly the given pairs and orders them strictly by name |
| MemoCache.SortedUnique | utils/cache_utils.py:27 | two strictly name-sorted orderings of the same pairs are the same sequence |
| MemoCache.KwParts | utils/cache_utils.py:27-28 | one `k=v` part per keyword argument |
| MemoCache.GetCacheKey | utils/cache_utils.py:19-32 | the loop appends the name, each `str(arg)` and each sorted `k=v`, joined by "_": the key string `KeyString` (before the digest) |
| MemoCache.JoinedPartsCollide | utils/cache_utils.py:31 | joining with "_" lets different argument lists share a key: `("a_b")` and `("a", "b")` collide |
| MemoCache.MemoryHit | utils/cache_utils.py:47-51 | a memory entry younger than the TTL is returned without running the function, and nothing changes |
| MemoCache.DiskHitKeepsTimestamp | utils/cache_utils.py:54-62 | a fresh disk entry is returned and promoted to memory with its original timestamp |
| MemoCache.MissRunsFunction | utils/cache_utils.py:63-79 | a missing, stale or corrupt entry runs the function once and stores `(value, now)` in memory whether or not the disk write succeeds |
| MemoCache.CallIsLocal | utils/cache_utils.py:72-76 | a call changes only the entries under its own key |
| MemoCache.Cache.constructor | utils/cache_utils.py:13-17 | the cache starts with empty memory and disk |
| MemoCache.Cache.ClearDiskCache | utils/cache_utils.py:90-97 | removes every disk entry and leaves memory alone |
| MemoCache.KeywordOrderIrrelevant | old_streamlit/utils/cache_utils.py:19-32 | passing the same keyword arguments in another order gives the same key |
| MemoCache.RepeatWithinTtl | old_streamlit/utils/cache_utils.py:47-51 | after a miss, the same call within the TTL returns the stored value without running the function |
| MemoCache.Cache.CachedCall | old_streamlit/utils/cache_utils.py:43-81 | the wrapper looks in memory, then on disk, then runs and stores, as `Call` describes |
| MemoCache.Cache.ClearCache | old_streamlit/utils/cache_utils.py:85-88 | empties memory and leaves the disk entries |
| StateManagement.Dumped | utils/state_manager.py:106 | `json.dump(..., default=str)` writes JSON values as they are and anything else as its `str()` |
| StateManagement.StoredList | utils/state_manager.py:192-203 | the stored project list, or [] when the file is missing or does not parse; the store holds only lists under that path, as the program writes nothing else there |
| StateManagement.ProjectData | utils/state_manager.py:234-240 | exactly the whitelisted keys present in the session, with their values |
| StateManagement.RemoveFirst | utils/state_manager.py:184 | `list.remove` drops one occurrence of a listed name and leaves an absent one alone |
| StateManagement.StateManager.constructor | utils/state_manager.py:15-28 | the manager keeps its directory and reads its project list from the store |
| StateManagement.StateManager.SaveState | utils/state_manager.py:30-116 | the call ends as `SaveAttempt` says: refused, or the save loop, the state write and the list update as `Save`; a failure before the `try` raises instead of returning, leaves the project list as it was and returns no result |
| StateManagement.SaveWithoutCrash | utils/state_manager.py:60-116 | when every write before the `try` succeeds, the call ends as `Save` |
| StateManagement.ImageWriteCrash | utils/state_manager.py:65-76 | a failing `img.save` of image `idx` raises exactly when the save is not refused and that image exists; the images before it stay on disk, and so do the pictures of `maps_images` when `user_images` fails; `state.json` and the list file are untouched; otherwise the call ends as `Save` |
| StateManagement.ImageDirCrash | utils/state_manager.py:65-68 | a failing `os.makedirs` of an image directory raises exactly when the save is not refused and the key is in the session, leaving the pictures of `maps_images` when `user_images` fails and `state.json` and the list file untouched |
| StateManagement.AudioCopyCrash | utils/state_manager.py:77-88 | a failing voice-over copy raises exactly when the save is not refused and the voice-over file exists, with nothing written yet |
| StateManagement.StateManager.LoadState | utils/state_manager.py:118-159 | the load loop gives `Load`: False without a state file, and a raising entry stops it |
| StateManagement.StateManager.DeleteProject | utils/state_manager.py:165-190 | removal of the directory and of the listed name give `Delete` |
| StateManagement.StateManager.GetProjectList | utils/state_manager.py:161-163 | returns the project list |
| StateManagement.SaveImages | utils/state_manager.py:71-74 | image `i` of a list is written to `images/<key>/image_i.png` and the paths are returned in order |
| StateManagement.SaveKeyStep | utils/state_manager.py:62-90 | one pass of the whitelist loop, as `SaveKey` describes: images written and replaced by their paths, an existing voice-over copied to `audio/audio.mp3` (an empty file when it already is that file, since the target is truncated before the source is read), other values kept, and each pre-`try` failure raising |
| StateManagement.SaveLoop | utils/state_manager.py:60-90 | the loop over the whitelist raises with the store as the first failure leaves it, or ends with exactly the entries and store `Collect` gives |
| StateManagement.LoadImagesFailureSticks | utils/state_manager.py:144-148 | once a listed path is not a picture, the image list fails whatever follows |
| StateManagement.LoadFromFailureSticks | utils/state_manager.py:140-159 | once an entry raises, the rest of the state file is not looked at |
| StateManagement.GetProjectData | utils/state_manager.py:212-240 | the loop over the whitelist returns `ProjectData` of the session |
| StateManagement.SetProjectData | utils/state_manager.py:242-250 | every given key is written and every other key is kept |
| StateManagement.SaveRefused | utils/state_manager.py:42-43 | a listed name without `overwrite` returns False and writes nothing |
| StateManagement.SaveAppendsIfAbsent | utils/state_manager.py:108-111 | a successful save appends the name only when it is not yet listed |
| StateManagement.SaveKeepsNamesUnique | utils/state_manager.py:109-111 | a list without duplicates stays without duplicates, and a saved name appears in it exactly once |
| StateManagement.DeleteRemovesName | utils/state_manager.py:175-187 | a successful delete drops the name and every file of the project, and succeeds for a name never saved |
| StateManagement.LoadWithoutStateFile | utils/state_manager.py:132-133 | without a state file `load_state` returns False and leaves the session alone |
| StateManagement.LoadSkipsMetadata | utils/state_manager.py:140-154 | loading changes only the keys the state file names, and never `_metadata` |
| StateManagement.ProjectFilesApart | utils/state_manager.py:67-104 | the state file, the audio copy, the project list and the image files never share a path |
| StateManagement.SavedFiles | utils/state_manager.py:62-106 | a save past the refusal that writes its state file leaves that file and every picture of the session in the store |
| StateManagement.SavedDataFind | utils/state_manager.py:60-96 | the state data records each present whitelisted key as its stored value (image paths, the copied audio, or the value itself) and `_metadata` with version "1.0" |
| StateManagement.SaveThenLoad | utils/state_manager.py:30-159 | loading a just-saved project restores the whitelisted values (images as pictures, audio as the copy, the rest as JSON wrote them) and leaves every other key as it was |
| StateManagement.CollectAudio | utils/state_manager.py:77-88 | after the whitelist loop the project's `audio/audio.mp3` holds the session's voice-over, or nothing when the voice-over already is that file |
| StateManagement.SavedAudio | utils/state_manager.py:77-88 | a save that is not refused leaves the voice-over copy in the store; it equals the source when the source is another file, and is empty exactly when the source is the copy itself or was empty |
| StateManagement.ResaveEmptiesAudio | utils/state_manager.py:84-86 | saving a project, loading it and saving it again with overwrite leaves its voice-over empty, because the loaded session names the copy and `open(audio_path, 'wb')` truncates it before it is read |
| StateManagement.SavedStateReadable | utils/state_manager.py:141-151 | the state file a save wrote is there and its images read back as the saved pictures |
| StateManagement.ProjectDataTransfer | old_streamlit/utils/state_manager.py:212-250 | setting one session's project data on another makes the target's project data that of the source, key by key |
| StateManagement.KeysToSaveFacts | old_streamlit/utils/state_manager.py:46-58 | the whitelist has no duplicates, names the audio before the images, and does not contain `_metadata` |
| StateManagement.LoadFromFacts | old_streamlit/utils/state_manager.py:140-156 | a state file none of whose entries raises loads to the end, each named key ending as its entry says |
| WizardNavigation.KeysNamespaced | utils/wizard_utils.py:36-40 | wizards with different names never share a session key, and a wizard's index and data keys differ |
| WizardNavigation.OtherWizardUntouched | utils/wizard_utils.py:47-50 | a write to one wizard's key leaves every key of another wizard as it was |
| WizardNavigation.NextIndex | utils/wizard_utils.py:77-80 | `next_step` moves one on except at the last step |
| WizardNavigation.PreviousIndex | utils/wizard_utils.py:82-85 | `previous_step` moves one back except at the first step |
| WizardNavigation.GoToIndex | utils/wizard_utils.py:87-90 | `go_to_step` takes an in-range target and ignores any other |
| WizardNavigation.NavigationInRange | utils/wizard_utils.py:77-90 | from an index in range, every navigation and every button stays in range |
| WizardNavigation.NextNeedsNoError | utils/wizard_utils.py:120-129 | Next advances exactly when it is shown and the step has no validation error, and otherwise stays |
| WizardNavigation.EmptyWizardRunsOn | utils/wizard_utils.py:62-65 | with no steps `is_last_step` is never true, so `next_step` keeps counting |
| WizardNavigation.Progress | utils/wizard_utils.py:95 | `index / (len - 1)` is undefined (division by zero) exactly for a one-step wizard |
| WizardNavigation.ProgressBounds | utils/wizard_utils.py:95 | with at least two steps the bar lies in [0, 1], 0 exactly at the first step and 1 exactly at the last |
| WizardNavigation.Indicators | utils/wizard_utils.py:143-145 | one mark per step |
| WizardNavigation.IndicatorTrichotomy | utils/wizard_utils.py:145-158 | step `i` is done below the index, current at it and future above it; at most one step is current |
| WizardNavigation.Wizard.constructor | utils/wizard_utils.py:32-40 | the index (0) and the dictionary ({}) are created only when absent; existing ones and every other key are kept |
| WizardNavigation.Wizard.CurrentIndex | utils/wizard_utils.py:42-45 | the stored index |
| WizardNavigation.Wizard.GetData | utils/wizard_utils.py:67-69 | the wizard's dictionary, or an empty one |
| WizardNavigation.Wizard.IsFirstStep | utils/wizard_utils.py:57-60 | true exactly at index 0 |
| WizardNavigation.Wizard.IsLastStep | utils/wizard_utils.py:62-65 | true exactly at index `len(steps) - 1` |
| WizardNavigation.Wizard.SetData | utils/wizard_utils.py:71-75 | writes one key of the wizard's dictionary and nothing else |
| WizardNavigation.Wizard.NextStep | utils/wizard_utils.py:77-80 | the stored index becomes `NextIndex` of the old one; nothing else changes |
| WizardNavigation.Wizard.PreviousStep | utils/wizard_utils.py:82-85 | the stored index becomes `PreviousIndex` of the old one; nothing else changes |
| WizardNavigation.Wizard.GoToStep | utils/wizard_utils.py:87-90 | the stored index becomes `GoToIndex` of the old one; nothing else changes |
| WizardNavigation.Wizard.Press | utils/wizard_utils.py:106-133 | one pressed button moves the stored index as `AfterPress` says; nothing else changes |
| WizardFlow.ValidationRules | modules/controllers/wizard_controller.py:101-120 | step 1 needs `property_text`, step 2 `audio_path`, step 3 `maps_images` or `user_images`, step 4 always passes |
| WizardFlow.ProgressBounds | modules/controllers/wizard_controller.py:41 | `current_step / 3` lies in [0, 1], 0 exactly at the first step and 1 exactly at the last |
| WizardFlow.IndicatorMarks | modules/controllers/wizard_controller.py:84-99 | a step is done below the current one, current at it and to come above it |
| WizardFlow.WizardController.constructor | modules/controllers/wizard_controller.py:10-34 | the wizard starts at step 0 |
| WizardFlow.WizardController.GoToNextStep | modules/controllers/wizard_controller.py:122-126 | increments only below the last step |
| WizardFlow.WizardController.GoToPreviousStep | modules/controllers/wizard_controller.py:128-132 | decrements only above the first step |
| WizardFlow.WizardController.ValidateCurrentStep | modules/controllers/wizard_controller.py:101-120 | true exactly when the current step's requirement is met |
| WizardFlow.WizardController.Press | modules/controllers/wizard_controller.py:59-82 | Previous goes back above step 0, Home only switches the view, Next advances only before the last step and only when valid, Finish only celebrates when valid; the step stays in [0, 3] |
| WizardFlow.Run | modules/controllers/wizard_controller.py:59-82 | any sequence of presses keeps the step in [0, 3] |
| WizardFlow.FirstBlocked | modules/controllers/wizard_controller.py:101-120 | the first step whose requirement is missing: every earlier step is valid and it is not |
| WizardFlow.RunStopsAtFirstBlocked | modules/controllers/wizard_controller.py:74-77 | however the buttons are pressed, the wizard never gets past the first step whose requirement is missing |
| AppFlow.AppSession.constructor | app.py:93-99 | a session starts with the given keys and values |
| AppFlow.ApplyTemplate | app.py:229-240 | the custom choice changes nothing; a template writes its settings in order and never the description |
| AppFlow.TemplateSettingsApplied | app.py:188-224 | after a template is applied its transition, fps, quality and colour boost are in the session, the description key is untouched and so is every other key |
| AppFlow.CheckBackgroundTasks | app.py:270-279 | records finished more than 1800 seconds ago are purged first, then the session's task is looked up; the id is dropped exactly when the background task finished or failed |
| AppFlow.DecisionCases | app.py:280-368 | an in-progress status shows its progress and a Turkish stage caption, a completed task shows its video only when the file exists, both completed and failed clear the background task id, an unknown id or other status shows nothing |
| AppFlow.PurgedTaskIdStays | app.py:273-279 | once the tracked record is purged the id is never cleared by later visits |
| AppFlow.IncludeBordered | app.py:801-808 | the bordered image is put first in a copy of the map images and nothing else changes |
| AppFlow.CheckRequirements | app.py:842-872 | returns exactly the missing components, and "met" holds exactly when none is missing |
| AppFlow.RequirementsMet | modules/controllers/video_controller.py:51-73 | nothing is missing exactly when the narration exists and some image exists; "Görüntüler" implies "En az bir görüntü"; at most three, all distinct, narration first |
| AppFlow.Head | app.py:919 | `s[:n]` is a prefix of length `min(|s|, n)` |
| AppFlow.AssembleImages | app.py:1112-1116 | the render input is at most eight map images then at most five user images |
| AppFlow.RenderInputShape | modules/controllers/video_controller.py:79-83 | at most 13 images; the map images lead; empty exactly when no image exists, which is exactly when "En az bir görüntü" is reported |
| AppFlow.BorderedLeadsRender | app.py:803-806 | an included bordered image is the first image rendered |
| AppFlow.GenerateVideoAsWritten | app.py:1122-1142 | as written, with images present the `start_task` call raises (it passes `timeout=`, which the manager does not take), so no task is ever submitted, the id is dropped, and the outcome is "no images" exactly when the image count is zero |
| AppFlow.ReadySessionNeverStarts | app.py:1122-1133 | a session with narration, settings and a map picture gets no task from the code as written |
| AppFlow.GenerateVideo | app.py:1103-1142 | with the background task started as intended: no images means no task; a setting missing from the session drops the background task id and submits nothing; otherwise one task named "video_generation" is registered as starting with the session's settings and its id stored |
| AppFlow.PropertyVideoWizard.constructor | app.py:1148-1158 | the wizard starts at the stored step, 0 when none is stored |
| AppFlow.PropertyVideoWizard.Press | app.py:1160-1181 | Back moves down above step 0, Forward moves up below the last step only when the step validates, and otherwise the session is unchanged |
| AppFlow.WizardRun | app.py:1166-1181 | any sequence of presses keeps the step among the five steps |
| AppFlow.WizardRules | app.py:1183-1202 | the per-step rules of `validate_step`, progress in [0, 1] and 1 only at the last step, Forward moves exactly when the step validates |
| AppFlow.NoAddressNoProgress | app.py:1186-1188 | without an address no sequence of presses leaves the first step |
| ImageOrganizer.Wrap | modules/image/image_organizer.py:24 | an in-bounds Python index, negative ones counting from the end, lands in `[0, n)` and a non-negative one is itself |
| ImageOrganizer.Pick | modules/image/image_organizer.py:24 | the comprehension has one picture per index, picture `k` being the one `order[k]` names |
| ImageOrganizer.Reorder | modules/image/image_organizer.py:10-24 | no order or one of another length returns the images; otherwise an IndexError exactly when some index is out of bounds, else the picked pictures |
| ImageOrganizer.IdentityOrder | modules/image/image_organizer.py:45 | `list(range(n))` has `n` entries, each position holding its own index |
| ImageOrganizer.IdentityPermutation | modules/image/image_organizer.py:45 | `list(range(n))` is a permutation of the indices below `n` |
| ImageOrganizer.DropLargest | modules/image/image_organizer.py:184 | removing the largest index from a permutation leaves a permutation of the smaller indices |
| ImageOrganizer.PickSplit | modules/image/image_organizer.py:185 | picking by a permutation splits off the last picture |
| ImageOrganizer.PickWithout | modules/image/image_organizer.py:24 | the pick at the position of the last index is the last picture, and the picks around it are the picks of the shorter order over the shorter list |
| ImageOrganizer.PickPermutation | modules/image/image_organizer.py:215 | picking by a permutation of the indices returns a permutation of the pictures |
| ImageOrganizer.ReorderPermutation | modules/image/image_organizer.py:21-24 | reordering by a permutation succeeds with a permutation of the images; by the identity it returns them unchanged |
| ImageOrganizer.Insert | modules/image/image_organizer.py:191 | inserting keeps every index in range and adds one to the length |
| ImageOrganizer.InsertMembers | modules/image/image_organizer.py:191 | after inserting, the list holds exactly the new index and the old ones |
| ImageOrganizer.SortedOrder | modules/image/image_organizer.py:214 | the sorted index list has `n` indices, all in range |
| ImageOrganizer.InsertSorted | modules/image/image_organizer.py:228 | inserting a new index into a sorted list keeps it sorted |
| ImageOrganizer.BeforeTransitive | modules/image/image_organizer.py:239 | the stable key order is transitive |
| ImageOrganizer.SortedOrderMembers | modules/image/image_organizer.py:184 | the sorted index list holds exactly the indices below `n` |
| ImageOrganizer.SortedOrderSorted | modules/image/image_organizer.py:214 | the sorted index list is ordered by key, ties by original position |
| ImageOrganizer.SortedOrderFacts | modules/image/image_organizer.py:228 | `sorted(range(n), key, reverse)` is a permutation of the indices ordered by key, stable for equal keys |
| ImageOrganizer.KeysOf | modules/image/image_organizer.py:183 | one key per picture |
| ImageOrganizer.ComputeKeys | modules/image/image_organizer.py:208-237 | the score loops produce exactly the key list of the chosen criterion |
| ImageOrganizer.CentreRegion | modules/image/image_organizer.py:223-224 | the centre region `[h//4, 3h//4) x [w//4, 3w//4)` lies inside the picture, is non-empty from size 2 and is the centred half when the size is a multiple of 4 |
| ImageOrganizer.ArrangeImages | modules/image/image_organizer.py:157-242 | the changed flag is set exactly when a button fired; Restore and no button return the pictures; each sorting button returns them picked by its sort order |
| ImageOrganizer.Order | modules/image/image_organizer.py:190-191 | every button's sort order is a permutation of the indices |
| ImageOrganizer.Sort | modules/image/image_organizer.py:184-185 | sorting picks the pictures by a permutation of their indices |
| ImageOrganizer.ArrangedOrder | modules/image/image_organizer.py:181-240 | each sorting button returns a permutation of the pictures ordered by area (largest first or smallest first) or by score (largest first), equal keys keeping their original relative order |
| Overlay.TextPositionRules | old_streamlit/modules/video/overlay_tools.py:49-65 | centred captions are centred horizontally, right-hand ones end `padding` before the right edge, left-hand ones start at `padding`, bottom ones end `padding` above the bottom, top ones start `padding` below the top, "center" is centred vertically, an unknown position is "bottom" |
| Overlay.PlanText | old_streamlit/modules/video/overlay_tools.py:10-90 | the requested size is used only with a loadable font path, else 16; without measuring the box is estimated from size and length; the background box surrounds the caption by `padding` on every side; the background alpha lies in [0, 255], 127 for opacity 0.5 |
| Overlay.LogoAspect | old_streamlit/modules/video/overlay_tools.py:114-115 | the logo's width is the truncated share of the frame width and its height keeps the logo's aspect ratio up to truncation |
| Overlay.LogoInside | old_streamlit/modules/video/overlay_tools.py:118-147 | a logo that fits with its padding is pasted inside the frame, at the named corner inset by `padding` (bottom-right for an unknown name), or centred up to one pixel |
| Overlay.ScaledAlpha | old_streamlit/modules/video/overlay_tools.py:140 | each alpha level is multiplied by the opacity |
| Overlay.ScaledAlphaBounds | old_streamlit/modules/video/overlay_tools.py:136-141 | an opacity in [0, 1] never raises an alpha level, and opacity 1 keeps every level |
| Overlay.ApplyOverlaysToVideoFrames | old_streamlit/modules/video/overlay_tools.py:151-188 | with no overlay the frames come back as they are; otherwise one processed frame per frame, each the frame with its overlays |
| Overlay.OverlaidNothing | old_streamlit/modules/video/overlay_tools.py:165-166 | with neither overlay a frame is unchanged |
| Overlay.OverlayOrder | old_streamlit/modules/video/overlay_tools.py:170-186 | each frame gets the caption and then the logo on top, missing options meaning the defaults, and keeps its own content |
| PropertyBorders.HexValue | shorting/shortGPT/modules/map_imagery.py:102 | a hex digit's value is below 16 |
| PropertyBorders.Strip | shorting/shortGPT/modules/map_imagery.py:102 | `int()` strips whitespace and never lengthens its argument |
| PropertyBorders.ParsePair | shorting/shortGPT/modules/map_imagery.py:102 | a slice of at most two characters read by `int(_, 16)`, when it parses, lies in [-15, 255] |
| PropertyBorders.ParsePairDigits | modules/image/image_processing.py:184-186 | two hex digits are read as one byte, high digit first |
| PropertyBorders.Slice | modules/image/image_processing.py:184 | Python's clipped slice is no longer than asked |
| PropertyBorders.LStripHash | shorting/shortGPT/modules/map_imagery.py:101 | `lstrip('#')` removes a leading run of hashes and keeps the rest |
| PropertyBorders.Pair | old_streamlit/modules/image/image_processing.py:280-282 | two hex digits make a byte in [0, 255] |
| PropertyBorders.SliceWithin | old_streamlit/modules/image/image_processing.py:281 | inside the string the clipped slice is the plain slice |
| PropertyBorders.PairParsed | old_streamlit/modules/image/image_processing.py:282 | parsing two hex digits gives the byte they write |
| PropertyBorders.PairsAt | modules/image/image_processing.py:184-187 | six hex digits are read as red, green, blue and handed on as blue, green, red |
| PropertyBorders.LStripHashes | shorting/shortGPT/modules/map_imagery.py:136 | stripping a run of `n` hashes leaves what follows them |
| PropertyBorders.MapColorReadsBytes | shorting/shortGPT/modules/map_imagery.py:100-103 | after any run of leading hashes, six hex digits are read as the three bytes, in blue, green, red order |
| PropertyBorders.DigitsAfterHashes | shorting/shortGPT/modules/map_imagery.py:181-182 | the three pairs after the hashes are read from the stripped text |
| PropertyBorders.MapColorFromStripped | shorting/shortGPT/modules/map_imagery.py:137 | the map parse is the pair reading of the stripped text |
| PropertyBorders.FixedColorReadsBytes | old_streamlit/modules/image/image_processing.py:279-282 | the fixed-position parse reads the digits after the first character, whatever it is |
| PropertyBorders.ColorParsesAgree | modules/image/image_processing.py:183-186 | on every well-formed "#RRGGBB" the map module's parse and the fixed-position parse give the same blue, green, red tuple |
| PropertyBorders.ShortColorFails | modules/image/image_processing.py:186 | a colour of at most five characters fails in both parses |
| PropertyBorders.DoubledHashDiffers | old_streamlit/modules/image/image_processing.py:280 | a doubled hash is accepted by the map module and refused by the fixed-position parse |
| PropertyBorders.MapBorderRect | shorting/shortGPT/modules/map_imagery.py:94-97 | the map module's border is symmetric: its far corner is as far from the far edge as its near corner from the near edge |
| PropertyBorders.AxisInside | modules/image/image_processing.py:189-190 | along a side, for a ratio up to one half, the inset is at most half the side and the far corner is not before the near one |
| PropertyBorders.BorderRectsInside | old_streamlit/modules/image/image_processing.py:285-286 | for a ratio up to one half both borders lie inside the picture |
| PropertyBorders.InsetVersusMap | modules/image/image_processing.py:189-190 | both borders share the near corner; the far corner agrees when `w * ratio` is whole and is one pixel nearer otherwise |
| PropertyBorders.TruncComplement | old_streamlit/modules/image/image_processing.py:286 | `int(w - a)` is `w - int(a)` when `a` is whole, one less otherwise |
| PropertyBorders.ManualBorder | shorting/shortGPT/modules/map_imagery.py:112-153 | fewer than two points leave the image; otherwise a polyline through the points, closed only when asked and with at least three points, or an error exactly when the colour fails to parse |
| PropertyBorders.HighlightArea | shorting/shortGPT/modules/map_imagery.py:155-197 | fewer than three points leave the image; otherwise the filled area in the parsed colour, or an error exactly when the colour fails to parse |
| PropertyBorders.DrawCheckedBorder | old_streamlit/modules/image/image_processing.py:253-291 | a colour the colour library refuses is a ValueError; an accepted one is drawn as the current module's border draws it, tuple and RGB canvas alike |
| PropertyBorders.BorderInside | shorting/shortGPT/modules/map_imagery.py:85-110 | a well-formed colour with a ratio up to one half draws a rectangle on a copy of the picture, inside it, with the blue, green, red tuple; the map module's border, drawn on a BGR canvas, shows the colour the text names, the image-processing one, drawn on the RGB array, shows it with red and blue exchanged |
| PropertyBorders.InsetBorderRedShowsBlue | modules/image/image_processing.py:179-194 | as written, the red "#FF0000" the application offers shows as blue (0, 0, 255) in the image-processing border and as red in the map module's |
| PropertyBorders.IntendedInsetBorderColor | modules/image/image_processing.py:179-194 | the corrected border, handing the tuple in red, green, blue order, shows the colour the text names at the same corners, the colour the map module's border shows |
| PropertyBorders.SaveImageToFile | shorting/shortGPT/modules/map_imagery.py:21-33 | true exactly when the write succeeds, writing only that path, a palette picture converted to RGB; on failure nothing is written |
| ImageFetch.CentreOf | modules/image/image_processing.py:88-91 | the request is centred on the coordinates exactly when both are given, on the address otherwise |
| ImageFetch.Opened | modules/image/image_processing.py:103-110 | a picture comes back exactly when the status is 200 and the body opens, enhanced when asked |
| ImageFetch.HandleApiResponse | old_streamlit/modules/image/image_processing.py:123-146 | a status other than 200 or a body that does not open gives None; otherwise the opened picture, enhanced by the boost only when asked |
| ImageFetch.FetchImage | modules/image/image_processing.py:118-165 | without an API key nothing is sent; otherwise one request centred as `CentreOf` says, with the key; a picture only from a 200 reply that opens |
| ImageFetch.FetchImageChecked | old_streamlit/modules/image/image_processing.py:148-197 | the older fetchers share the key guard and the request, then hand the reply to the response handler |
| ImageFetch.DefaultFetchEnhances | old_streamlit/modules/image/image_processing.py:191-193 | with the session's defaults the current fetch equals the older one enhancing by 1.5 |
| ImageFetch.Confident | old_streamlit/modules/image/image_processing.py:107-108 | only detections with confidence above 0.5 are kept, in order |
| ImageFetch.LabelledFails | old_streamlit/modules/image/image_processing.py:109 | labelling fails exactly when a confident detection's class id does not index the labels |
| ImageFetch.LabelledEntries | old_streamlit/modules/image/image_processing.py:106-113 | a successful labelling has one entry per confident detection, in order, with its confidence and label |
| ImageFetch.ParseDetections | old_streamlit/modules/image/image_processing.py:106-113 | the detection loop builds exactly the labelled list |
| ImageFetch.RecognizeObjects | old_streamlit/modules/image/image_processing.py:69-121 | a picture that fails to convert gives None; any other gives building 0.9, car 0.8, tree 0.7 |
| ImageFetch.LabelledFailureSticks | old_streamlit/modules/image/image_processing.py:110 | a lookup that fails in a prefix fails the whole list |
| ImageFetch.LabelledSnoc | old_streamlit/modules/image/image_processing.py:111-113 | one more confident detection with a known class adds exactly its entry |
| ImageFetch.SimulatedRecognition | old_streamlit/modules/image/image_processing.py:97-102 | the fixed detections are all confident and are labelled building, car, tree |
| MusicLibrary.FileNames | modules/audio/music_library.py:32 | the file names, one per sample entry, in order |
| MusicLibrary.TrackFileMatchesSamples | modules/audio/music_library.py:84-98 | a key has a track exactly when it is one of the five sample keys, and the track's file is the one the start-up step provides for it |
| MusicLibrary.InitialisedFacts | modules/audio/music_library.py:31-44 | start-up never overwrites an existing file and touches only the sample names; a name is present afterwards exactly when it was, has a sample, or a placeholder could be written; a sample is copied as is, a placeholder is ten seconds of silence |
| MusicLibrary.InitialisedStable | old_streamlit/modules/audio/music_library.py:37 | a directory with every name present, or impossible to provide, is left as it is |
| MusicLibrary.InitialiseIdempotent | old_streamlit/modules/audio/music_library.py:17-44 | running the start-up step a second time changes nothing |
| MusicLibrary.DownloadReturnsMissingFile | modules/audio/music_library.py:102-111 | as written, with no track file and a failing export, the path of a file that does not exist is returned |
| MusicLibrary.Download | modules/audio/music_library.py:74-111 | custom, no-music and unknown keys give no path and change nothing; a known key gives the path of its file, whose file then exists, and None only when the file was missing and could not be written; existing files are never changed and only the placeholder is added |
| MusicLibrary.DownloadCorrection | old_streamlit/modules/audio/music_library.py:102-111 | the corrected download leaves the same directory as the code as written, and differs only by returning no path where that code returns a missing file's path |
| MusicLibrary.MusicDirectory.constructor | old_streamlit/modules/audio/music_library.py:11-14 | the music directory starts with the given files |
| MusicLibrary.MusicDirectory.Initialize | old_streamlit/modules/audio/music_library.py:158-159 | the import-time start-up leaves the directory `Initialised` describes |
| MusicLibrary.MusicDirectory.DownloadMusic | old_streamlit/modules/audio/music_library.py:74-111 | the directory and path are those of the corrected download |
| MusicLibrary.AttenuationDb | modules/audio/music_library.py:131 | a volume in [0, 1] attenuates by 0 to 10 dB, 8 dB at the default 0.2 |
| MusicLibrary.Attenuated | old_streamlit/modules/audio/music_library.py:131 | every level is lowered by the attenuation |
| MusicLibrary.RepeatedLength | modules/audio/music_library.py:140 | a clip repeated `k` times is `k` times as long |
| MusicLibrary.ModOf | old_streamlit/modules/audio/music_library.py:143 | the quotient-remainder decomposition fixes the remainder |
| MusicLibrary.RepeatedAt | old_streamlit/modules/audio/music_library.py:140 | millisecond `i` of a repeated clip is the clip's millisecond `i mod` its length |
| MusicLibrary.LongEnough | modules/audio/music_library.py:139 | `int(v / m) + 1` copies of `m` milliseconds outlast `v` |
| MusicLibrary.MixAudio | modules/audio/music_library.py:113-156 | a mix exists exactly when both files decode, the export works and the music is not empty under a longer narration; it is written to `mixed_audio.mp3` in the temporary directory, is as long as the narration, and millisecond `i` is the narration's over the attenuated music's millisecond `i mod` its length |
| RealEstateEngine.ImageKey | shorting/shortGPT/engine/realestate_video_engine.py:106 | every picture key starts with `image_` |
| RealEstateEngine.ImageKeyDistinct | shorting/shortGPT/engine/realestate_video_engine.py:106 | distinct pictures have distinct keys, none of them the script's or the duration's |
| RealEstateEngine.SlotsTile | shorting/shortGPT/engine/realestate_video_engine.py:98-103 | the picture slots tile the narration: the first starts at 0, each ends where the next starts, the last ends at the total, all of equal length |
| RealEstateEngine.SavedPath | shorting/shortGPT/engine/realestate_video_engine.py:165-171 | a loaded picture whose save does not raise is written to `property_img_<i>.jpg` in the temporary directory; a path is returned as it is |
| RealEstateEngine.SavedCount | shorting/shortGPT/engine/realestate_video_engine.py:165-171 | the loop saves exactly the pictures before the first loaded one PIL cannot write as JPEG (a palette or RGBA picture), and that one raises |
| RealEstateEngine.SavedEntriesFacts | shorting/shortGPT/engine/realestate_video_engine.py:100-111 | after saving, picture `i` is under its key with its saved path and its slot, and every other key keeps its value |
| RealEstateEngine.PlanShape | shorting/shortGPT/engine/realestate_video_engine.py:119-150 | every plan opens with background music and then the narration, shows the pictures and ends with captions; the pictures fade for luxury, slide for commercial and zoom otherwise; only the commercial plan has five steps and data overlays |
| RealEstateEngine.RealEstateVideoEngine.constructor | shorting/shortGPT/engine/realestate_video_engine.py:10-59 | the engine keeps its property data, script and template, starts with no pictures, the base database, the fresh temporary directory and no video |
| RealEstateEngine.RealEstateVideoEngine.PrepareScript | shorting/shortGPT/engine/realestate_video_engine.py:67-81 | an empty script becomes the welcome placeholder naming the property type, a given one is kept; it is stored under "script" and returned |
| RealEstateEngine.RealEstateVideoEngine.PrepareImagery | shorting/shortGPT/engine/realestate_video_engine.py:83-113 | the pictures are taken from the property data; no pictures writes nothing; with pictures a duration that is not a number raises TypeError before anything is written; otherwise the pictures before the first unsavable one are stored with their slots, and that one raises OSError with those entries already written |
| RealEstateEngine.WriteImageEntries | shorting/shortGPT/engine/realestate_video_engine.py:100-111 | the loop writes, for each picture in order, its saved path and its slot under its key, and stops with a failure at the first picture that cannot be saved; it fails exactly when one cannot, and leaves the entries `SavedEntriesFacts` describes for the `SavedCount` pictures before it |
| RealEstateEngine.RealEstateVideoEngine.EditAndRenderVideo | shorting/shortGPT/engine/realestate_video_engine.py:115-163 | the video path becomes `real_estate_video.mp4` in the temporary directory and nothing else changes |
| RealEstateEngine.RealEstateVideoEngine.TestRun | shorting/shortGPT/engine/realestate_video_engine.py:177-197 | the script is always reported; the imagery step runs only for a non-empty picture list; status "error" with the TypeError or the OSError message exactly when the duration is not a number or a picture cannot be saved, and the picture count only when the step ran; the pictures are the property's when the step ran, the database holds the script and, when the step ran with a numeric duration, the entries of the pictures saved before any failure; the video path is untouched |
| DroneVideo.GetCoordinates | colab.py:32-40 | a found address gives its coordinates; a missing one or any raised error becomes a ValueError carrying the wrapped message |
| DroneVideo.Range | colab.py:76 | `range(start, stop, step)` lists `start + i * step` below `stop`, reaching past `stop` by the next step |
| DroneVideo.Headings | colab.py:48 | zero views is a ZeroDivisionError |
| DroneVideo.TruncNegate | colab.py:48 | `int()` truncates toward zero, so `int(-y) == -int(y)` |
| DroneVideo.HeadingsCases | colab.py:42-48 | 1 to 360 views give headings from 0 in steps of `int(360 / views)`, all below 360 and covering the circle; more than 360 views either way is a ValueError (a zero step); -360 to -1 views give no headings |
| DroneVideo.FourHeadings | colab.py:43-48 | the default four views look north, east, south and west |
| DroneVideo.Kept | colab.py:60-63 | at most one picture per heading |
| DroneVideo.KeptFacts | colab.py:56-66 | every kept picture is the content of a 200 answer, and one is kept for every such answer |
| DroneVideo.FetchAll | colab.py:76-95 | the fetch loop keeps exactly the pictures of 200 answers that open, in heading order |
| DroneVideo.GetSatelliteImages | colab.py:42-67 | a heading error is passed on; otherwise the pictures kept over the headings |
| DroneVideo.GetStreetViewImages | colab.py:69-95 | the pictures kept at the four compass points |
| DroneVideo.TransitionWeights | colab.py:117-129 | a transition has `frames` frames (none for zero or fewer), starts with the first picture alone, and its weights rise strictly within [0, 1) |
| DroneVideo.DivMonotone | colab.py:125 | `i / n` rises with `i` and is 1 at `n` |
| DroneVideo.EffectFacts | colab.py:131-152 | zoom and pan make `frames` frames and an unknown effect none; the zoom scale starts at 1, rises strictly and stays below 1.3; the pan shift starts at 0, never falls and stays below a fifth of the width |
| DroneVideo.FrameBounds | colab.py:140-147 | each frame's zoom scale lies in [1, 1.3) and its pan shift in [0, 0.2 w) |
| DroneVideo.FrameSteps | colab.py:139-148 | from one frame to the next the zoom grows and the shift does not shrink |
| DroneVideo.ScaledBelow | colab.py:147 | a fraction below 1 of a non-negative amount stays below it |
| DroneVideo.ScaledMonotone | colab.py:146-147 | scaling and truncating keep the order of fractions |
| DroneVideo.LoopFailureNone | colab.py:159-171 | the frame loop gets through its first `k` passes exactly when no pass meets a picture `enhance_image` cannot convert (not three or four channels) or a pair of enhanced pictures of different sizes |
| DroneVideo.LoopFailureSticks | colab.py:159-171 | a pass that raises ends the loop with that failure |
| DroneVideo.CreateTransition | colab.py:117-129 | pictures of different widths, heights or channel counts raise in the first blend when there is a frame to make; otherwise the loop builds exactly the cross-fade frames |
| DroneVideo.ImageSegment | colab.py:159-171 | one pass of the frame loop raises what `StepFailure` names, or yields exactly the image's drone clip followed, unless it is the last, by the cross-fade to the next |
| DroneVideo.CreateDroneEffect | colab.py:134-152 | the loops build exactly the effect's frames |
| DroneVideo.SegmentLength | colab.py:159-171 | every image but the last contributes 90 frames, the last 60 |
| DroneVideo.TimelineLength | colab.py:166-171 | the first `k` segments before the last image make `90 k` frames |
| DroneVideo.ClipAt | colab.py:164-166 | image `i`'s drone clip sits at frame `90 i` of the finished timeline, zooming for even and panning for odd positions |
| DroneVideo.VideoShape | colab.py:154-172 | `n` images make `60 n + 30 (n - 1)` frames, image `i`'s clip occupying frames `90 i` to `90 i + 59` |
| DroneVideo.TimelinePrefix | colab.py:158-171 | a longer timeline extends a shorter one |
| DroneVideo.GenerateVideo | colab.py:154-184 | the outcome is `Render`: the first enhancement or blending failure of the loop raises, no images raise in the clip, and otherwise the output path is returned with the clip holding exactly the timeline at the given rate and the audio only when a path is given and exists |
| DroneVideo.RenderOutcome | colab.py:154-184 | with the frames handed over as arrays, a video is written exactly for a non-empty list of pictures with three or four channels each of the size of the next; no images is exactly the empty-clip error; a written video holds the whole timeline |
| DroneVideo.MismatchedSizesRaise | colab.py:124-126 | a 640x640 picture followed by an 800x600 one raises in the first cross-fade |
| DroneVideo.PilFramesNeverRender | colab.py:154-174 | as written the clip is handed PIL images, so no call writes a video: every input the corrected call renders raises when the clip reads the first frame's shape, and every other input raises as before |
| EnhanceIntegration.SmartEnhanced | modules/image/enhance_integration.py:22-48 | the deep path is taken exactly when asked for, always sharpening and passing the resolution and noise switches through; otherwise the standard enhancement with the colour boost; either way of the given image |
| EnhanceIntegration.DefaultIsStandard | old_streamlit/modules/image/enhance_integration.py:22-23 | with no options an image gets the standard enhancement with boost 1.5 |
| EnhanceIntegration.ReportsAt | modules/image/enhance_integration.py:65-67 | report `i` of the loop is the one before image `i` |
| EnhanceIntegration.FractionsRise | old_streamlit/modules/image/enhance_integration.py:67 | the per-image fractions `i / total` rise strictly and stay in [0, 1) |
| EnhanceIntegration.BatchReportFacts | modules/image/enhance_integration.py:62-73 | a batch reports once per image and then once more; the fractions start at 0, rise strictly and stay below 1, and the closing report is 1.0; an empty batch reports only that |
| EnhanceIntegration.Enhancement.constructor | old_streamlit/modules/image/enhance_integration.py:13 | at import no deep enhancer exists |
| EnhanceIntegration.Enhancement.GetDeepEnhancer | modules/image/enhance_integration.py:15-20 | the first call creates the enhancer, every later call returns that same one, and never more than one is made |
| EnhanceIntegration.Enhancement.SmartEnhanceImage | old_streamlit/modules/image/enhance_integration.py:37-48 | returns what `SmartEnhanced` describes; only the deep path touches, and possibly creates, the shared enhancer |
| EnhanceIntegration.Enhancement.BatchEnhanceImages | old_streamlit/modules/image/enhance_integration.py:50-75 | image `i` of the result is input `i` enhanced with the same options; with a callback the reports are the batch's reports, without one there are none; with deep enhancement asked for and at least one picture the deep enhancer exists afterwards, and no picture leaves the enhancer as it was |
| AppFlow.AppliedLast | app.py:236-239 | after the apply loop a key other than the description holds the value of its last write |
| AppFlow.AppliedUntouched | app.py:236-239 | after the apply loop the description, or a key the list never writes, keeps its old value or stays absent |
| AppFlow.ApplySettings | app.py:236-239 | the loop writes every listed setting except the description, in order |
| WizardNavigation.Wizard.SetIndex | utils/wizard_utils.py:47-50 | the setter writes the wizard's own index key and nothing else |
| StateManagement.WriteImagesFacts | utils/state_manager.py:71-74 | writing a picture list stores picture `i` at its path and leaves every other path as it was |
| StateManagement.LoadImagesWritten | utils/state_manager.py:144-148 | reading back the paths of a written list gives its pictures |
| StateManagement.LoadedSession | utils/state_manager.py:140-156 | state data of the shape a save produces loads without error: non-empty picture lists come back as they were, other values as their JSON form, the audio as the project's copy, and every key not restored keeps its old value |
| MemoCache.InsertByKeyFacts | utils/cache_utils.py:27 | inserting a pair under a new name keeps the list strictly sorted and adds exactly that pair |

## Left out

- Pixel, audio and video work inside OpenCV, PIL, NumPy, moviepy, pydub and FFmpeg is not modelled, because it belongs to those libraries. This covers resizing, warping, blending, colour enhancement, CLAHE, denoising, drawing, compositing, decoding, encoding and muxing. A frame or picture records only what it was made from and with which parameters.
- Optical flow, feature tracking and the affine estimate of the stabiliser are replaced by one observation per frame pair. The trigonometry of the transform matrix is left out, because it is floating-point numerics inside OpenCV. A re-detection that finds no corners leaves `prev_pts` as None, and the next `cv2.calcOpticalFlowPyrLK` (modules/video/advanced_stabilization.py:47, after the re-detection at line 53) would then raise. That raise is not modelled, because every frame pair has an observation in the model.
- Floating point is not modelled: ratios, fractions, means and scales are exact `real`s. Python's `int()` on them is truncation toward zero, and `//` and `%` by positive constants are Dafny's `/` and `%`.
- The HTTP calls (Static Maps, Street View, the geocoder), Gemini, ElevenLabs and Vertex AI are not modelled, because they are foreign services. Each call's reply, or its failure, is a parameter.
- Threads, locks, the single-worker executor and the sleeping timeout thread are not modelled: the background task managers are driven by calls in one sequential order. The clock and "the timeout fired" are explicit inputs.
- The MD5 digest of the cache key and pickling are not modelled: entries are addressed by the key string itself, and the disk layer is a map.
- Streamlit rendering is not modelled, because it decides nothing. This covers widgets, `st.info`/`st.error` messages, `safe_rerun`, the two-second sleep before a status rerun, video playback and the download button.
- The progress bar text inside `generate_video` is not modelled, for the same reason.
- The step pages of both wizards are not modelled. In `PropertyVideoWizard.show`, a stored step outside 0 to 4 would make `self.steps[self.step]()` raise IndexError; that call is not modelled either.
- `save_project` and `load_project`, which the application calls on a `StateManager` that does not define them, are not modelled.
- The stub `generate_video_in_background` of old_streamlit/utils/background_tasks.py is not modelled. It passes a dictionary to a callback that expects a number.
- The drag-and-drop HTML and JavaScript of `display_draggable_images` and its base64 previews are not modelled, because nothing they do reaches the returned order.
- The sharpness, composition and colourfulness scores are not modelled, because they are computed by OpenCV and NumPy. Each is a field of the picture.
- The notebook's `main` input loop and its upload handling are not modelled, because they are console interaction.
- The internals of `DeepImageEnhancer` are not modelled.
- The real-estate engine's inherited steps are not modelled. These are the narration, caption timing and background assets, plus the base engine's progress reports.
- The real-estate engine's rendering is a placeholder in the source; only the path it sets is modelled.
- A colour string that does not start with `#` reaches the map drawing calls as given. What OpenCV does with such a value is not modelled.
- `int(text, 16)` is modelled over ASCII hex digits and ASCII whitespace. Python also accepts non-ASCII digits and whitespace, which the model treats as a ValueError.
- Overlay options dictionaries are either absent, empty (both meaning the defaults) or complete. A dictionary giving only some keywords is not modelled.
- Fetch requests record the endpoint, the centre and the key. Zoom, size, map type, heading, pitch and field of view are passed through without effect on anything modelled.
- FrameEffects.Linspace: values are exact reals, so a factor that IEEE doubles would round differently is not captured.
- Overlay.ScaledAlpha: the rounding of each scaled level back to an 8-bit integer by PIL's lookup table is not modelled.
- MusicLibrary.MixAudio: a decoded clip is a sequence of levels. The mix keeps, at each position, the voice level beside the looped music level lowered by the attenuation. pydub's summing of the two and its clipping are not modelled.
- RealEstateEngine.RealEstateVideoEngine.EditAndRenderVideo: the editing plan is computed and never used by the source. `EditingPlan` and `PlanShape` state it on its own.
- ImageFetch.RecognizeObjects: with the fixed simulated detections the "no objects" branch that returns None cannot be reached. The filter itself is stated for any detections by `ParseDetections` and `LabelledEntries`.
- StateManagement.StateManager.SaveState: a voice-over copy that fails after `open(audio_path, 'wb')` has created the target may leave an empty or partial copy; the model's `AudioCopyFails` leaves the store as it was. A session whose image keys do not hold picture lists, or whose `audio_path` is not a path string, makes the loop raise; the model demands `WellTyped` of the session instead.
- AppFlow.GenerateVideo: the video controller's call passes `task_function=` and `timeout=1800`, the keywords of the older manager in old_streamlit/utils/background_tasks.py. That call site is not reconciled with either manager; the background task is registered in the module-global table.
- DroneVideo.GenerateVideo: the raises modelled are `enhance_image` on a picture without three or four channels, `cv2.addWeighted` on enhanced pictures of different sizes, and `ImageSequenceClip` on no frames or on PIL frames. An audio file moviepy cannot open and a failing `write_videofile` are not modelled.
- Overlay.ApplyOverlaysToVideoFrames: a logo layer records the logo and its options, not its size. A logo of width 0, or a frame so narrow that `logo_width` truncates to 0 so that PIL's `resize` raises, is not modelled as a failure of the loop; `LogoSize` states the size computation with its ZeroDivisionError on its own.

## Findings

| source | as written | input that shows it | evidently intended | confidence | as-written member | corrected member |
|---|---|---|---|---|---|---|
| modules/audio/music_library.py:102-111 | `create_silent_audio` catches its own export error, so the `except` around it never fires and `download_music` returns the path of a file it failed to create | key "elegant", no `elegant_corporate.mp3` in the music directory, placeholder export fails | return None when the placeholder could not be written, as the handler at lines 107-109 means to | not executed | MusicLibrary.DownloadReturnsMissingFile | MusicLibrary.DownloadCorrection |
| app.py:1122-1142 | `start_task(..., timeout=180)` passes a keyword that `BackgroundTaskManager.start_task` in utils/background_tasks.py:16 does not take, so the call always raises TypeError, the handler drops the background task id, and no video task ever starts | a session with `audio_path`, `transition_type`, `fps`, `video_quality` and one map picture | register the render task and store its id | not executed | AppFlow.ReadySessionNeverStarts | AppFlow.GenerateVideo |
| modules/image/image_processing.py:183-194 | the colour is parsed into a `(b, g, r)` tuple and drawn with `cv2.rectangle` on `np.array(image)`, which is in RGB order, and the array goes back through `Image.fromarray` unconverted, so red and blue are exchanged | "#FF0000" (the red choice offered at app.py:754-766) draws a blue border | hand the tuple over as `(r, g, b)`, showing the chosen colour as the map module does after its BGR conversion | not executed | PropertyBorders.InsetBorderRedShowsBlue | PropertyBorders.IntendedInsetBorderColor |
| colab.py:154-174 | `enhance_image`, `create_drone_effect` and `create_transition` return PIL images, and `ImageSequenceClip`, handed a list that is not of file names, reads `sequence[0].shape`, which a PIL image does not have, so every call that gets through the frame loop raises AttributeError and no video is written | any non-empty list of RGB pictures of one size | hand the frames over as NumPy arrays (`np.array(frame)`), writing the clip | not executed | DroneVideo.PilFramesNeverRender | DroneVideo.RenderOutcome |
