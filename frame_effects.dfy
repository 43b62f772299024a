/** The per-image camera-motion generator of the video pipeline:
    `create_frame_effect` turns one still raster into a list of zoom crops or
    pan shifts. Pixels are opaque; a frame records which rectangle of its
    source was cropped (and resized back to the source size) or by how much
    the source was translated. */
module FrameEffects {
  import opened Base

  /** A decoded raster. Only its size matters to the planning logic. */
  datatype Raster = Raster(id: nat, width: nat, height: nat)

  /** One output frame; it always has the size of its `source`. */
  datatype Frame =
    | Crop(source: Raster, y1: int, y2: int, x1: int, x2: int)
    | Shift(source: Raster, dx: int, dy: int)

  // ---------------------------------------------------------------------
  // numpy.linspace over exact reals

  /** Element `k` of `numpy.linspace(start, stop, n)` (endpoint included). */
  function LinAt(start: real, stop: real, n: nat, k: nat): real
    requires k < n
  {
    if n == 1 then start else start + (stop - start) * (k as real) / ((n - 1) as real)
  }

  function Linspace(start: real, stop: real, n: nat): (r: seq<real>)
    ensures |r| == n
    ensures forall k :: 0 <= k < n ==> r[k] == LinAt(start, stop, n, k)
  {
    seq(n, k requires 0 <= k < n => LinAt(start, stop, n, k))
  }

  lemma LinAtBounds(start: real, stop: real, n: nat, k: nat)
    requires k < n && start <= stop
    ensures start <= LinAt(start, stop, n, k) <= stop
  {
    if n > 1 {
      var d := (n - 1) as real;
      var t := (k as real) / d;
      assert 0.0 <= t <= 1.0;
      assert (stop - start) * (k as real) / d == (stop - start) * t;
      MulNonNegative(stop - start, t);
      MulNonNegative(stop - start, 1.0 - t);
    }
  }

  lemma LinAtMonotone(start: real, stop: real, n: nat, i: nat, j: nat)
    requires i <= j < n && start <= stop
    ensures LinAt(start, stop, n, i) <= LinAt(start, stop, n, j)
  {
    if n > 1 {
      var d := (n - 1) as real;
      assert (stop - start) * (i as real) <= (stop - start) * (j as real);
      assert (stop - start) * (i as real) / d <= (stop - start) * (j as real) / d;
    }
  }

  // ---------------------------------------------------------------------
  // Zoom

  /** The centred crop for one zoom factor: `int(h / factor)` rows and
      `int(w / factor)` columns, offset by half the difference (floor). */
  function ZoomCrop(img: Raster, factor: real): Frame
    requires factor > 0.0
  {
    var newH := Trunc(img.height as real / factor);
    var newW := Trunc(img.width as real / factor);
    var y1 := (img.height - newH) / 2;
    var x1 := (img.width - newW) / 2;
    Crop(img, y1, y1 + newH, x1, x1 + newW)
  }

  /** The guard of the source: the crop is a non-empty rectangle inside the image. */
  predicate CropInside(f: Frame)
  {
    f.Crop? && 0 <= f.y1 < f.y2 <= f.source.height && 0 <= f.x1 < f.x2 <= f.source.width
  }

  /** The crop is centred: its offset is half the removed margin, rounded down. */
  predicate Centred(f: Frame)
  {
    f.Crop? && f.y1 == (f.source.height - (f.y2 - f.y1)) / 2
    && f.x1 == (f.source.width - (f.x2 - f.x1)) / 2
  }

  predicate AllPositive(factors: seq<real>)
  {
    forall k :: 0 <= k < |factors| ==> factors[k] > 0.0
  }

  /** Zoom frames for a list of factors: one centred crop per factor, kept
      only when it passes the bounds guard. */
  function ZoomFrames(img: Raster, factors: seq<real>): seq<Frame>
    requires AllPositive(factors)
  {
    if factors == [] then []
    else
      var c := ZoomCrop(img, factors[|factors| - 1]);
      ZoomFrames(img, factors[..|factors| - 1]) + (if CropInside(c) then [c] else [])
  }

  lemma ZoomFramesSnoc(img: Raster, factors: seq<real>)
    requires AllPositive(factors) && factors != []
    ensures var c := ZoomCrop(img, factors[|factors| - 1]);
      ZoomFrames(img, factors) == ZoomFrames(img, factors[..|factors| - 1]) + (if CropInside(c) then [c] else [])
  {
  }

  /** One more factor of a positive list adds its guarded crop to the frames. */
  lemma ZoomFramesStep(img: Raster, factors: seq<real>, k: nat)
    requires AllPositive(factors) && k < |factors|
    ensures AllPositive(factors[..k]) && AllPositive(factors[..k + 1])
    ensures var c := ZoomCrop(img, factors[k]);
      ZoomFrames(img, factors[..k + 1]) == ZoomFrames(img, factors[..k]) + (if CropInside(c) then [c] else [])
  {
    var p := factors[..k + 1];
    assert p[..k] == factors[..k];
    ZoomFramesSnoc(img, p);
  }

  function ZoomFactors(n: nat, zoomIn: bool): seq<real>
  {
    Linspace(1.0, if zoomIn then 1.3 else 1.0, n)
  }

  lemma ZoomFactorsRange(n: nat, zoomIn: bool)
    ensures forall k :: 0 <= k < n ==> 1.0 <= ZoomFactors(n, zoomIn)[k] <= 1.3
  {
    forall k | 0 <= k < n
      ensures 1.0 <= ZoomFactors(n, zoomIn)[k] <= 1.3
    {
      LinAtBounds(1.0, if zoomIn then 1.3 else 1.0, n, k);
    }
  }

  // ---------------------------------------------------------------------
  // Pan

  predicate Horizontal(direction: string)
  {
    direction == "right" || direction == "left"
  }

  predicate Reversed(direction: string)
  {
    direction == "right" || direction == "down"
  }

  /** `w // 4` for horizontal pans, `h // 4` otherwise. */
  function MaxShift(img: Raster, direction: string): nat
  {
    if Horizontal(direction) then img.width / 4 else img.height / 4
  }

  /** The integer shift of pan frame `k`: `int(linspace(0, max_shift, n)[k])`,
      read back to front for "right" and "down". */
  function PanShift(img: Raster, n: nat, direction: string, k: nat): int
    requires k < n
  {
    var j := if Reversed(direction) then n - 1 - k else k;
    Trunc(LinAt(0.0, MaxShift(img, direction) as real, n, j))
  }

  /** The translation matrix of the source moves the image by `-shift`
      along x for horizontal pans and along y for every other direction. */
  function PanFrame(img: Raster, direction: string, shift: int): Frame
  {
    if Horizontal(direction) then Shift(img, -shift, 0) else Shift(img, 0, -shift)
  }

  function PanFrames(img: Raster, n: nat, direction: string): seq<Frame>
  {
    seq(n, k requires 0 <= k < n => PanFrame(img, direction, PanShift(img, n, direction, k)))
  }

  /** What `create_frame_effect` returns. */
  function FrameEffect(img: Raster, n: nat, effect: string, zoomIn: bool, direction: string): seq<Frame>
  {
    if effect == "zoom" then
      ZoomFactorsRange(n, zoomIn);
      ZoomFrames(img, ZoomFactors(n, zoomIn))
    else if effect == "pan" then PanFrames(img, n, direction)
    else []
  }

  // ---------------------------------------------------------------------
  // The generator itself

  /** The zoom branch of `create_frame_effect`: one guarded centred crop
      per linspace factor. */
  method ZoomEffect(img: Raster, n: nat, zoomIn: bool) returns (frames: seq<Frame>)
    ensures frames == FrameEffect(img, n, "zoom", zoomIn, "")
  {
    var h, w := img.height, img.width;
    var zoomRange := ZoomFactors(n, zoomIn);
    ZoomFactorsRange(n, zoomIn);
    assert AllPositive(zoomRange);
    frames := [];
    var k := 0;
    while k < n
      invariant 0 <= k <= n
      invariant AllPositive(zoomRange[..k])
      invariant frames == ZoomFrames(img, zoomRange[..k])
    {
      var factor := zoomRange[k];
      var crop := ZoomCrop(img, factor);
      ZoomFramesStep(img, zoomRange, k);
      if 0 <= crop.y1 < crop.y2 <= h && 0 <= crop.x1 < crop.x2 <= w {
        frames := frames + [crop];
      }
      k := k + 1;
    }
    assert zoomRange[..n] == zoomRange;
  }

  /** The pan branch of `create_frame_effect`: one translated frame per
      linspace shift. */
  method PanEffect(img: Raster, n: nat, direction: string) returns (frames: seq<Frame>)
    ensures frames == FrameEffect(img, n, "pan", true, direction)
  {
    var maxShift := if Horizontal(direction) then img.width / 4 else img.height / 4;
    var shifts := Linspace(0.0, maxShift as real, n);
    if Reversed(direction) {
      shifts := seq(n, k requires 0 <= k < n => shifts[n - 1 - k]);
    }
    frames := [];
    var k := 0;
    while k < n
      invariant 0 <= k <= n
      invariant |shifts| == n
      invariant forall j :: 0 <= j < n ==> Trunc(shifts[j]) == PanShift(img, n, direction, j)
      invariant frames == PanFrames(img, n, direction)[..k]
    {
      var shift := Trunc(shifts[k]);
      if Horizontal(direction) {
        frames := frames + [Shift(img, -shift, 0)];
      } else {
        frames := frames + [Shift(img, 0, -shift)];
      }
      k := k + 1;
    }
  }

  /** `create_frame_effect`: zoom, pan, or nothing for any other effect. */
  method CreateFrameEffect(img: Raster, n: nat, effect: string, zoomIn: bool, direction: string)
    returns (frames: seq<Frame>)
    ensures frames == FrameEffect(img, n, effect, zoomIn, direction)
  {
    if effect == "zoom" {
      frames := ZoomEffect(img, n, zoomIn);
    } else if effect == "pan" {
      frames := PanEffect(img, n, direction);
    } else {
      frames := [];
    }
  }

  // ---------------------------------------------------------------------
  // Properties

  lemma {:induction false} ZoomFramesAtMost(img: Raster, factors: seq<real>)
    requires AllPositive(factors)
    ensures |ZoomFrames(img, factors)| <= |factors|
  {
    if factors != [] {
      ZoomFramesAtMost(img, factors[..|factors| - 1]);
    }
  }

  /** Every zoom frame that is kept is a centred crop lying inside the image. */
  lemma {:induction false} ZoomFramesCentredInside(img: Raster, factors: seq<real>)
    requires AllPositive(factors)
    requires forall k :: 0 <= k < |factors| ==> factors[k] >= 1.0
    ensures forall f :: f in ZoomFrames(img, factors) ==>
      CropInside(f) && Centred(f) && f.source == img
  {
    if factors != [] {
      var init := factors[..|factors| - 1];
      ZoomFramesCentredInside(img, init);
    }
  }

  lemma TruncQuotientAtMost(x: nat, f: real)
    requires f >= 1.0
    ensures 0 <= Trunc(x as real / f) <= x
  {
    assert x as real / f <= x as real by {
      assert (x as real / f) * f == x as real;
    }
  }

  lemma TruncQuotientPositive(x: nat, f: real)
    requires 1.0 <= f <= x as real
    ensures 1 <= Trunc(x as real / f)
  {
    assert x as real / f >= 1.0 by {
      assert (x as real / f) * f == x as real;
    }
  }

  /** On an image of at least 2x2 pixels no zoom factor in [1, 1.3] is
      dropped by the guard: zoom returns one frame per factor. */
  lemma {:induction false} ZoomKeepsEveryFactor(img: Raster, factors: seq<real>)
    requires img.width >= 2 && img.height >= 2
    requires forall k :: 0 <= k < |factors| ==> 1.0 <= factors[k] <= 1.3
    ensures |ZoomFrames(img, factors)| == |factors|
  {
    if factors != [] {
      var f := factors[|factors| - 1];
      ZoomKeepsEveryFactor(img, factors[..|factors| - 1]);
      TruncQuotientAtMost(img.height, f);
      TruncQuotientAtMost(img.width, f);
      TruncQuotientPositive(img.height, f);
      TruncQuotientPositive(img.width, f);
      assert CropInside(ZoomCrop(img, f));
    }
  }

  /** With `zoom_in=False` every factor is 1.0, so every frame is the whole
      image (and none is dropped on a non-empty image). */
  lemma {:induction false} ZoomOutIsWholeImage(img: Raster, n: nat)
    requires img.width >= 1 && img.height >= 1
    ensures ZoomFrames(img, ZoomFactors(n, false)) == seq(n, k => Crop(img, 0, img.height, 0, img.width))
  {
    var fs := ZoomFactors(n, false);
    assert forall k :: 0 <= k < n ==> fs[k] == 1.0;
    WholeImageFrames(img, fs);
  }

  lemma {:induction false} WholeImageFrames(img: Raster, fs: seq<real>)
    requires img.width >= 1 && img.height >= 1
    requires forall k :: 0 <= k < |fs| ==> fs[k] == 1.0
    ensures ZoomFrames(img, fs) == seq(|fs|, k => Crop(img, 0, img.height, 0, img.width))
  {
    if fs != [] {
      var init := fs[..|fs| - 1];
      var whole := Crop(img, 0, img.height, 0, img.width);
      WholeImageFrames(img, init);
      ZoomFramesSnoc(img, fs);
      UnitZoomCrop(img);
      assert fs[|fs| - 1] == 1.0;
      assert CropInside(whole);
      assert seq(|fs|, k => whole) == seq(|init|, k => whole) + [whole];
    }
  }

  /** The factor 1 crops the whole image. */
  lemma UnitZoomCrop(img: Raster)
    ensures ZoomCrop(img, 1.0) == Crop(img, 0, img.height, 0, img.width)
  {
    assert img.height as real / 1.0 == img.height as real;
    assert img.width as real / 1.0 == img.width as real;
  }

  /** The pan returns exactly `n` frames, each an integer shift in
      [0, max_shift] along one axis only. */
  lemma PanShiftBounds(img: Raster, n: nat, direction: string)
    ensures |FrameEffect(img, n, "pan", true, direction)| == n
    ensures forall k :: 0 <= k < n ==> 0 <= PanShift(img, n, direction, k) <= MaxShift(img, direction)
    ensures forall k :: 0 <= k < n ==>
      var f := FrameEffect(img, n, "pan", true, direction)[k];
      f.Shift? && f.source == img &&
      (if Horizontal(direction) then f.dy == 0 && f.dx == -PanShift(img, n, direction, k)
       else f.dx == 0 && f.dy == -PanShift(img, n, direction, k))
  {
    forall k | 0 <= k < n
      ensures 0 <= PanShift(img, n, direction, k) <= MaxShift(img, direction)
    {
      var j := if Reversed(direction) then n - 1 - k else k;
      var m := MaxShift(img, direction);
      LinAtBounds(0.0, m as real, n, j);
      assert Trunc(m as real) == m;
    }
  }

  /** Shifts decrease along "right"/"down" (the reversed linspace) and
      increase along "left"/"up". */
  lemma PanShiftMonotone(img: Raster, n: nat, direction: string, i: nat, j: nat)
    requires i <= j < n
    ensures Reversed(direction) ==> PanShift(img, n, direction, i) >= PanShift(img, n, direction, j)
    ensures !Reversed(direction) ==> PanShift(img, n, direction, i) <= PanShift(img, n, direction, j)
  {
    var m := MaxShift(img, direction) as real;
    if Reversed(direction) {
      LinAtMonotone(0.0, m, n, n - 1 - j, n - 1 - i);
      LinAtBounds(0.0, m, n, n - 1 - j);
      TruncOrder(LinAt(0.0, m, n, n - 1 - j), LinAt(0.0, m, n, n - 1 - i));
    } else {
      LinAtMonotone(0.0, m, n, i, j);
      LinAtBounds(0.0, m, n, i);
      TruncOrder(LinAt(0.0, m, n, i), LinAt(0.0, m, n, j));
    }
  }

  lemma TruncOrder(x: real, y: real)
    requires 0.0 <= x <= y
    ensures Trunc(x) <= Trunc(y)
  {
  }

  /** An unknown effect type, or zero frames, yields no frames. */
  lemma NoFrames(img: Raster, n: nat, effect: string, zoomIn: bool, direction: string)
    requires (effect != "zoom" && effect != "pan") || n == 0
    ensures FrameEffect(img, n, effect, zoomIn, direction) == []
  {
    if effect == "zoom" {
      assert ZoomFactors(n, zoomIn) == [];
    }
  }

  /** Zoom and pan on an image of at least 2x2 pixels honour the frame
      count exactly. */
  lemma {:induction false} EffectLength(img: Raster, n: nat, effect: string, zoomIn: bool, direction: string)
    requires img.width >= 2 && img.height >= 2
    requires effect == "zoom" || effect == "pan"
    ensures |FrameEffect(img, n, effect, zoomIn, direction)| == n
  {
    if effect == "zoom" {
      ZoomFactorsRange(n, zoomIn);
      ZoomKeepsEveryFactor(img, ZoomFactors(n, zoomIn));
    }
  }
}
