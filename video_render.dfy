/** `generate_video` and its FFmpeg fallback: choose the output quality,
    split the audio's frame budget over at most eight images, probe the
    first working codec, emit each image's effect frames, and fall back to
    a still-image slideshow whenever anything on the primary route raises.
    Everything the libraries decide on their own (whether the audio loads,
    which codecs open, whether encoding and muxing succeed, which temporary
    directory is created) is an explicit environment value. */
module VideoRender {
  import opened Base
  import opened FrameEffects

  /** Output resolution and bitrate of one quality level. */
  datatype Quality = Quality(width: nat, height: nat, bitrate: string)

  /** What the libraries would do on this run. */
  datatype RenderEnv = RenderEnv(
    audioDuration: Option<real>,   // None: the audio file cannot be opened
    openingCodecs: set<string>,    // the FOURCCs whose test writer opens
    encodeOk: bool,                // writing, muxing and saving the primary video succeed
    fallbackEncodeOk: bool,        // writing the fallback clip succeeds
    tempDir: string,               // directory made by the primary route
    fallbackTempDir: string)       // directory made by the fallback

  /** How a call ends. `fallbackRuns` counts the calls of the fallback. */
  datatype Outcome =
    | Encoded(path: string, codec: string, written: seq<Frame>, settings: Quality)
    | FellBack(path: string, stills: seq<Raster>, fallbackRuns: nat)
    | Raised(fallbackRuns: nat)

  /** "high" selects 1080p at 4000k, every other value 720p at 2000k. */
  function QualitySettings(quality: string): (q: Quality)
    ensures q.width * 9 == q.height * 16
    ensures quality == "high" <==> q.height == 1080
    ensures q.height == 1080 ==> q.bitrate == "4000k"
    ensures q.height != 1080 ==> q == Quality(1280, 720, "2000k")
  {
    if quality == "high" then Quality(1920, 1080, "4000k") else Quality(1280, 720, "2000k")
  }

  /** Resizing to the target size keeps the picture and changes its size. */
  function Resize(img: Raster, q: Quality): (r: Raster)
    ensures r.id == img.id && r.width == q.width && r.height == q.height
  {
    Raster(img.id, q.width, q.height)
  }

  // ---------------------------------------------------------------------
  // Frame budget

  /** At most eight images take part in the primary route. */
  function ImageCount(available: nat): (n: nat)
    ensures n <= 8 && n <= available
    ensures n == available || n == 8
  {
    if available < 8 then available else 8
  }

  function FramesPerImage(duration: real, fps: int, n: nat): int
    requires n > 0
  {
    Trunc(duration * fps as real / n as real)
  }

  /** The per-image budget rounds down, so the images together get at most
      the audio's frame count and lose fewer than one frame per image. */
  lemma FrameBudget(duration: real, fps: int, n: nat)
    requires n > 0 && duration * fps as real >= 0.0
    ensures var total := n * FramesPerImage(duration, fps, n);
      total >= 0 && total as real <= duration * fps as real < (total + n) as real
  {
    var budget := duration * (fps as real);
    var nr := n as real;
    var f := FramesPerImage(duration, fps, n);
    assert budget / nr >= 0.0;
    ScaleBounds(budget, nr, f);
    assert (n * f) as real == nr * (f as real);
    assert (n * f + n) as real == nr * (f as real + 1.0);
  }

  lemma ScaleBounds(b: real, d: real, f: int)
    requires d > 0.0 && f as real <= b / d < f as real + 1.0
    ensures d * (f as real) <= b && b < d * ((f as real) + 1.0)
  {
    var q := b / d;
    var x, y := f as real, (f as real) + 1.0;
    assert b == d * q;
    MulLe(d, x, q);
    MulLt(d, q, y);
    assert d * x <= d * q < d * y;
    assert b < d * y;
    assert d * y == d * ((f as real) + 1.0);
  }

  lemma MulLe(a: real, x: real, y: real)
    requires a > 0.0 && x <= y
    ensures a * x <= a * y
  {
    assert a * y - a * x == a * (y - x);
  }

  lemma MulLt(a: real, x: real, y: real)
    requires a > 0.0 && x < y
    ensures a * x < a * y
  {
    assert a * y - a * x == a * (y - x);
  }

  lemma MulSucc(k: nat, b: nat)
    ensures (k + 1) * b == k * b + b
  {
  }

  // ---------------------------------------------------------------------
  // Codec probe

  const TestCodecs: seq<string> := ["mp4v", "avc1", "XVID", "H264"]

  /** The first candidate whose test writer opens. */
  function FirstCodec(candidates: seq<string>, opening: set<string>): Option<string>
  {
    if candidates == [] then None
    else if candidates[0] in opening then Some(candidates[0])
    else FirstCodec(candidates[1..], opening)
  }

  /** The probe picks an opening codec with no opening codec before it, and
      finds none exactly when no candidate opens. */
  lemma {:induction false} FirstCodecChoice(candidates: seq<string>, opening: set<string>)
    ensures FirstCodec(candidates, opening).None? <==>
      forall j :: 0 <= j < |candidates| ==> candidates[j] !in opening
    ensures FirstCodec(candidates, opening).Some? ==>
      exists k :: 0 <= k < |candidates| && candidates[k] == FirstCodec(candidates, opening).value
        && candidates[k] in opening && forall j :: 0 <= j < k ==> candidates[j] !in opening
  {
    if candidates != [] && candidates[0] !in opening {
      var rest := candidates[1..];
      FirstCodecChoice(rest, opening);
      assert forall j :: 0 < j < |candidates| ==> candidates[j] == rest[j - 1];
      if FirstCodec(rest, opening).Some? {
        var k :| 0 <= k < |rest| && rest[k] == FirstCodec(rest, opening).value
          && rest[k] in opening && forall j :: 0 <= j < k ==> rest[j] !in opening;
        assert candidates[k + 1] == rest[k];
      }
    }
  }

  /** The probe loop: stops at the first codec whose writer opens. */
  method ProbeCodecs(opening: set<string>) returns (codec: Option<string>)
    ensures codec == FirstCodec(TestCodecs, opening)
  {
    codec := None;
    var i := 0;
    while i < |TestCodecs|
      invariant 0 <= i <= |TestCodecs|
      invariant FirstCodec(TestCodecs, opening) == FirstCodec(TestCodecs[i..], opening)
    {
      if TestCodecs[i] in opening {
        codec := Some(TestCodecs[i]);
        return;
      }
      assert TestCodecs[i..][1..] == TestCodecs[i + 1..];
      i := i + 1;
    }
  }

  // ---------------------------------------------------------------------
  // Effect frames of the primary route

  const PanDirections: seq<string> := ["right", "left", "up", "down"]

  /** The effect chosen for image number `idx` (0-based) of the list:
      "Yakınlaşma" zooms in on even and out on odd images, "Kaydırma" pans
      right, left, up, down in turn, anything else spends half the budget
      (rounded down) on a zoom and the rest on a right/left pan. */
  function ImageFrames(img: Raster, transition: string, idx: nat, budget: nat): seq<Frame>
  {
    if transition == "Yakınlaşma" then FrameEffect(img, budget, "zoom", idx % 2 == 0, "right")
    else if transition == "Kaydırma" then FrameEffect(img, budget, "pan", true, PanDirections[idx % 4])
    else
      var half := budget / 2;
      FrameEffect(img, half, "zoom", idx % 2 == 0, "right")
        + FrameEffect(img, budget - half, "pan", true, ["right", "left"][idx % 2])
  }

  /** The frames written for the images of `imgs`, in order. */
  function WrittenFrames(imgs: seq<Raster>, transition: string, budget: nat, q: Quality): seq<Frame>
  {
    if imgs == [] then []
    else
      var k := |imgs| - 1;
      WrittenFrames(imgs[..k], transition, budget, q) + ImageFrames(Resize(imgs[k], q), transition, k, budget)
  }

  lemma ImageFramesCount(img: Raster, transition: string, idx: nat, budget: nat)
    requires img.width >= 2 && img.height >= 2
    ensures |ImageFrames(img, transition, idx, budget)| == budget
  {
    var half := budget / 2;
    EffectLength(img, budget, "zoom", idx % 2 == 0, "right");
    EffectLength(img, budget, "pan", true, PanDirections[idx % 4]);
    EffectLength(img, half, "zoom", idx % 2 == 0, "right");
    EffectLength(img, budget - half, "pan", true, ["right", "left"][idx % 2]);
  }

  /** Every image contributes exactly its budget of frames. */
  lemma {:induction false} WrittenFramesCount(imgs: seq<Raster>, transition: string, budget: nat, q: Quality)
    requires q.width >= 2 && q.height >= 2
    ensures |WrittenFrames(imgs, transition, budget, q)| == |imgs| * budget
  {
    if imgs != [] {
      var k := |imgs| - 1;
      var init := WrittenFrames(imgs[..k], transition, budget, q);
      var last := ImageFrames(Resize(imgs[k], q), transition, k, budget);
      assert WrittenFrames(imgs, transition, budget, q) == init + last;
      WrittenFramesCount(imgs[..k], transition, budget, q);
      ImageFramesCount(Resize(imgs[k], q), transition, k, budget);
      MulSucc(k, budget);
    }
  }

  // ---------------------------------------------------------------------
  // The fallback

  /** The stills of the fallback: every image (no limit of eight), resized. */
  function Stills(imgs: seq<Raster>, q: Quality): (r: seq<Raster>)
    ensures |r| == |imgs|
    ensures forall i :: 0 <= i < |imgs| ==> r[i] == Resize(imgs[i], q)
  {
    seq(|imgs|, i requires 0 <= i < |imgs| => Resize(imgs[i], q))
  }

  /** `generate_video_with_ffmpeg`: an empty image list, a missing audio
      file or a failed encode raise (None); otherwise it returns the path of
      the video it saved in its own temporary directory. */
  function Fallback(imgs: seq<Raster>, quality: string, env: RenderEnv): (r: Option<string>)
    ensures r.Some? <==> imgs != [] && env.audioDuration.Some? && env.fallbackEncodeOk
    ensures r.Some? ==> r.value == env.fallbackTempDir + "/final_video.mp4"
  {
    if imgs == [] || env.audioDuration.None? || !env.fallbackEncodeOk then None
    else Some(env.fallbackTempDir + "/final_video.mp4")
  }

  /** The `except` branch of `generate_video`: one more fallback call,
      which re-raises when it fails. */
  function AfterFailure(imgs: seq<Raster>, quality: string, env: RenderEnv, runs: nat): Outcome
  {
    match Fallback(imgs, quality, env)
    case Some(path) => FellBack(path, Stills(imgs, QualitySettings(quality)), runs + 1)
    case None => Raised(runs + 1)
  }

  /** What `generate_video` does. */
  function Render(imgs: seq<Raster>, transition: string, fps: int, quality: string, env: RenderEnv): Outcome
  {
    var q := QualitySettings(quality);
    var n := ImageCount(|imgs|);
    if env.audioDuration.None? || n == 0 then AfterFailure(imgs, quality, env, 0)
    else
      var budget := FramesPerImage(env.audioDuration.value, fps, n);
      match FirstCodec(TestCodecs, env.openingCodecs)
      case None =>
        // the fallback is called inside the try; if it raises, the except calls it again
        if Fallback(imgs, quality, env).Some? then AfterFailure(imgs, quality, env, 0)
        else AfterFailure(imgs, quality, env, 1)
      case Some(codec) =>
        if budget < 0 || !env.encodeOk then AfterFailure(imgs, quality, env, 0)
        else Encoded(env.tempDir + "/final_video.mp4", codec, WrittenFrames(imgs[..n], transition, budget, q), q)
  }

  /** The effect dispatch of the per-image loop. */
  method EffectFramesFor(img: Raster, transition: string, idx: nat, budget: nat) returns (frames: seq<Frame>)
    ensures frames == ImageFrames(img, transition, idx, budget)
  {
    if transition == "Yakınlaşma" {
      frames := CreateFrameEffect(img, budget, "zoom", idx % 2 == 0, "right");
    } else if transition == "Kaydırma" {
      frames := CreateFrameEffect(img, budget, "pan", true, PanDirections[idx % 4]);
    } else {
      var half := budget / 2;
      var zoomFrames := CreateFrameEffect(img, half, "zoom", idx % 2 == 0, "right");
      var panFrames := CreateFrameEffect(img, budget - half, "pan", true, ["right", "left"][idx % 2]);
      frames := zoomFrames + panFrames;
    }
  }

  /** `generate_video`: the codec probe and the per-image loop. */
  method GenerateVideo(imgs: seq<Raster>, transition: string, fps: int, quality: string, env: RenderEnv)
    returns (out: Outcome)
    ensures out == Render(imgs, transition, fps, quality, env)
  {
    var q := QualitySettings(quality);
    var n := ImageCount(|imgs|);
    if env.audioDuration.None? || n == 0 {
      return AfterFailure(imgs, quality, env, 0);
    }
    var budget := FramesPerImage(env.audioDuration.value, fps, n);
    var codec := ProbeCodecs(env.openingCodecs);
    if codec.None? {
      if Fallback(imgs, quality, env).Some? {
        return AfterFailure(imgs, quality, env, 0);
      }
      return AfterFailure(imgs, quality, env, 1);
    }
    if budget < 0 {
      return AfterFailure(imgs, quality, env, 0);
    }
    var written: seq<Frame> := [];
    var idx := 0;
    while idx < n
      invariant 0 <= idx <= n
      invariant written == WrittenFrames(imgs[..idx], transition, budget, q)
    {
      var frames := EffectFramesFor(Resize(imgs[idx], q), transition, idx, budget);
      assert imgs[..idx + 1][..idx] == imgs[..idx];
      written := written + frames;
      idx := idx + 1;
    }
    if !env.encodeOk {
      return AfterFailure(imgs, quality, env, 0);
    }
    out := Encoded(env.tempDir + "/final_video.mp4", codec.value, written, q);
  }

  // ---------------------------------------------------------------------
  // Properties of the whole call

  /** A finished primary render used the first opening codec, the first
      min(n, 8) images, and the audio's frame budget rounded down per image. */
  lemma EncodedVideo(imgs: seq<Raster>, transition: string, fps: int, quality: string, env: RenderEnv)
    requires Render(imgs, transition, fps, quality, env).Encoded?
    ensures var out := Render(imgs, transition, fps, quality, env);
      var n := ImageCount(|imgs|);
      out.path == env.tempDir + "/final_video.mp4"
      && out.codec in env.openingCodecs
      && out.settings == QualitySettings(quality)
      && env.audioDuration.Some? && 0 < n <= 8
      && |out.written| == n * FramesPerImage(env.audioDuration.value, fps, n)
  {
    var n := ImageCount(|imgs|);
    var q := QualitySettings(quality);
    var d := env.audioDuration.value;
    var budget := FramesPerImage(d, fps, n);
    var codec := FirstCodec(TestCodecs, env.openingCodecs);
    var written := WrittenFrames(imgs[..n], transition, budget, q);
    assert codec.Some? && budget >= 0;
    assert Render(imgs, transition, fps, quality, env) == Encoded(env.tempDir + "/final_video.mp4", codec.value, written, q);
    FirstCodecChoice(TestCodecs, env.openingCodecs);
    WrittenFramesCount(imgs[..n], transition, budget, q);
  }

  /** Every primary frame comes from one of the first min(n, 8) images,
      resized to the target size. */
  lemma {:induction false} WrittenFramesSources(imgs: seq<Raster>, transition: string, budget: nat, q: Quality)
    ensures forall f :: f in WrittenFrames(imgs, transition, budget, q) ==>
      exists i :: 0 <= i < |imgs| && f.source == Resize(imgs[i], q)
  {
    if imgs != [] {
      var k := |imgs| - 1;
      var init := imgs[..k];
      WrittenFramesSources(init, transition, budget, q);
      var img := Resize(imgs[k], q);
      forall f | f in ImageFrames(img, transition, k, budget)
        ensures f.source == img
      {
        EffectSource(img, budget, transition, k, f);
      }
      forall f | f in WrittenFrames(imgs, transition, budget, q)
        ensures exists i :: 0 <= i < |imgs| && f.source == Resize(imgs[i], q)
      {
        if f in WrittenFrames(init, transition, budget, q) {
          var i :| 0 <= i < |init| && f.source == Resize(init[i], q);
          assert imgs[i] == init[i];
        } else {
          assert f.source == Resize(imgs[k], q);
        }
      }
    }
  }

  lemma EffectSource(img: Raster, budget: nat, transition: string, idx: nat, f: Frame)
    requires f in ImageFrames(img, transition, idx, budget)
    ensures f.source == img
  {
    var zoomIn := idx % 2 == 0;
    if transition == "Yakınlaşma" {
      ZoomSource(img, budget, zoomIn, f);
    } else if transition == "Kaydırma" {
      PanSource(img, budget, PanDirections[idx % 4], f);
    } else {
      var half := budget / 2;
      CombinedSource(img, half, budget - half, zoomIn, ["right", "left"][idx % 2], f);
    }
  }

  lemma CombinedSource(img: Raster, zoomFrames: nat, panFrames: nat, zoomIn: bool, direction: string, f: Frame)
    requires f in FrameEffect(img, zoomFrames, "zoom", zoomIn, "right") + FrameEffect(img, panFrames, "pan", true, direction)
    ensures f.source == img
  {
    if f in FrameEffect(img, zoomFrames, "zoom", zoomIn, "right") {
      ZoomSource(img, zoomFrames, zoomIn, f);
    } else {
      PanSource(img, panFrames, direction, f);
    }
  }

  lemma ZoomSource(img: Raster, n: nat, zoomIn: bool, f: Frame)
    requires f in FrameEffect(img, n, "zoom", zoomIn, "right")
    ensures f.source == img
  {
    ZoomFactorsRange(n, zoomIn);
    ZoomFramesCentredInside(img, ZoomFactors(n, zoomIn));
  }

  lemma PanSource(img: Raster, n: nat, direction: string, f: Frame)
    requires f in FrameEffect(img, n, "pan", true, direction)
    ensures f.source == img
  {
    var frames := PanFrames(img, n, direction);
    assert f in frames;
    var k :| 0 <= k < |frames| && frames[k] == f;
  }

  /** The fallback is reached exactly when the primary route cannot finish;
      a fallback that raises is called twice when no codec opened. */
  lemma FallbackRoute(imgs: seq<Raster>, transition: string, fps: int, quality: string, env: RenderEnv)
    ensures var out := Render(imgs, transition, fps, quality, env);
      !out.Encoded? <==>
        (env.audioDuration.None? || imgs == [] || FirstCodec(TestCodecs, env.openingCodecs).None?
         || !env.encodeOk || FramesPerImage(env.audioDuration.value, fps, ImageCount(|imgs|)) < 0)
    ensures var out := Render(imgs, transition, fps, quality, env);
      out.FellBack? ==> (out.fallbackRuns == 1 && out.path == env.fallbackTempDir + "/final_video.mp4"
        && out.stills == Stills(imgs, QualitySettings(quality)))
    ensures var out := Render(imgs, transition, fps, quality, env);
      out.Raised? ==> (out.fallbackRuns == (if env.audioDuration.Some? && imgs != []
        && FirstCodec(TestCodecs, env.openingCodecs).None? then 2 else 1))
  {
  }

  /** With no images the primary route divides by zero and the fallback
      has nothing to assemble, so the call raises. */
  lemma NoImagesRaises(transition: string, fps: int, quality: string, env: RenderEnv)
    ensures Render([], transition, fps, quality, env) == Raised(1)
  {
  }
}
