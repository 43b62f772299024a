/** The notebook drone-video generator: an address is geocoded, satellite
    views are fetched at evenly spaced headings and street views at the four
    compass points, and every picture, enhanced, becomes a zoom or pan
    "drone" clip joined to the next by a cross-fade. Pixels are opaque: a
    frame records the picture it shows and the blend weight, zoom scale or
    pan shift applied to it. The network and the geocoder are parameters;
    of the video writer only what it is handed is modelled. */
module DroneVideo {
  import opened Base

  /** A fetched or uploaded picture, with the channel count of its array
      (1 for grey or palette pictures, 3 for RGB, 4 for RGBA), or the
      picture `enhance_image` made of one. */
  datatype Picture = Source(id: nat, width: nat, height: nat, channels: nat) | Enhanced(of: Picture)

  function Width(p: Picture): nat
  {
    match p
    case Source(_, w, _, _) => w
    case Enhanced(q) => Width(q)
  }

  function Height(p: Picture): nat
  {
    match p
    case Source(_, _, h, _) => h
    case Enhanced(q) => Height(q)
  }

  /** `enhance_image` converts back from LAB, so its pictures are RGB. */
  function Channels(p: Picture): nat
  {
    match p
    case Source(_, _, _, c) => c
    case Enhanced(_) => 3
  }

  /** `cv2.cvtColor(..., COLOR_RGB2LAB)` takes three or four channels only;
      any other array makes `enhance_image` raise cv2.error. */
  predicate Enhanceable(p: Picture)
  {
    Channels(p) == 3 || Channels(p) == 4
  }

  datatype Frame =
    | Blend(first: Picture, second: Picture, alpha: real)
    | Zoomed(picture: Picture, scale: real)
    | Panned(picture: Picture, shift: int)

  // ---------------------------------------------------------------- geocoding

  /** What the geocoder did: found a place, found nothing, or raised. */
  datatype Geocode = Found(latitude: real, longitude: real) | NotFound | Raised(message: string)

  datatype Failure = ValueError(message: string) | ZeroDivisionError

  const GeocodePrefix: string := "Adres çözümlenirken hata oluştu: "

  /** `get_coordinates_from_address`: the place's coordinates; otherwise a
      ValueError, whose message wraps the "not found" error raised inside
      the same try block as well as any error of the geocoder itself. */
  function GetCoordinates(lookup: Geocode): (r: Result<(real, real), Failure>)
    ensures lookup.Found? <==> r.Ok?
    ensures lookup.Found? ==> r.value == (lookup.latitude, lookup.longitude)
    ensures lookup.NotFound? ==> r == Err(ValueError(GeocodePrefix + "Adres bulunamadı"))
    ensures lookup.Raised? ==> r == Err(ValueError(GeocodePrefix + lookup.message))
  {
    match lookup
    case Found(lat, lng) => Ok((lat, lng))
    case NotFound => Err(ValueError(GeocodePrefix + "Adres bulunamadı"))
    case Raised(m) => Err(ValueError(GeocodePrefix + m))
  }

  // ----------------------------------------------------------------- headings

  /** `range(start, stop, step)` for a positive step. */
  function Range(start: int, stop: int, step: int): (r: seq<int>)
    requires step > 0
    ensures forall i :: 0 <= i < |r| ==> r[i] == start + i * step && r[i] < stop
    ensures start < stop ==> |r| > 0 && stop <= start + |r| * step
    decreases stop - start
  {
    if start >= stop then [] else [start] + Range(start + step, stop, step)
  }

  /** The satellite headings `range(0, 360, int(360 / views))`: no views is
      a division by zero, a zero step a ValueError (`int()` gives 0 beyond
      360 views either way) and a negative step an empty range. */
  function Headings(views: int): (r: Result<seq<int>, Failure>)
    ensures views == 0 <==> r == Err(ZeroDivisionError)
  {
    if views == 0 then Err(ZeroDivisionError)
    else
      var step := Trunc(360.0 / views as real);
      if step == 0 then Err(ValueError("range() arg 3 must not be zero"))
      else if step < 0 then Ok([])
      else Ok(Range(0, 360, step))
  }

  lemma TruncNegate(y: real)
    requires y >= 0.0
    ensures Trunc(-y) == -Trunc(y)
  {
  }

  /** The step is `360 / views` rounded toward zero, so: between 1 and 360
      views the headings are the multiples of that step below 360, from 0;
      beyond 360 views in either direction the step is zero; a negative
      count up to -360 gives no headings. */
  lemma HeadingsCases(views: int)
    ensures 1 <= views <= 360 ==>
      (Headings(views).Ok?
       && |Headings(views).value| > 0 && Headings(views).value[0] == 0
       && 360 <= |Headings(views).value| * (360 / views)
       && forall i :: 0 <= i < |Headings(views).value| ==>
            Headings(views).value[i] == i * (360 / views) && Headings(views).value[i] < 360)
    ensures (views > 360 || views < -360) <==> Headings(views).Err? && Headings(views).error.ValueError?
    ensures -360 <= views < 0 ==> Headings(views) == Ok([])
  {
    if views > 0 {
      TruncOfQuotient(360, views);
    } else if views < 0 {
      TruncOfQuotient(360, -views);
      assert 360.0 / views as real == -(360.0 / (-views) as real);
      TruncNegate(360.0 / (-views) as real);
    }
  }

  /** The default four views look north, east, south and west, as the street views do. */
  lemma FourHeadings()
    ensures Headings(4) == Ok(StreetHeadings)
  {
    TruncOfQuotient(360, 4);
    assert Range(0, 360, 90) == [0, 90, 180, 270] by {
      assert Range(360, 360, 90) == [];
      assert Range(270, 360, 90) == [270];
      assert Range(180, 360, 90) == [180, 270];
      assert Range(90, 360, 90) == [90, 180, 270];
    }
  }

  /** `range(0, 360, 90)`. */
  const StreetHeadings: seq<int> := [0, 90, 180, 270]

  /** The endpoint's answer at one heading. */
  datatype Reply = Failed | Answer(status: int, content: Option<Picture>)

  /** The pictures kept: those of 200 answers that open, in heading order. */
  function Kept(headings: seq<int>, reply: int -> Reply): (r: seq<Picture>)
    ensures |r| <= |headings|
  {
    if |headings| == 0 then []
    else
      var prev := Kept(headings[..|headings| - 1], reply);
      var a := reply(headings[|headings| - 1]);
      if a.Answer? && a.status == 200 && a.content.Some? then prev + [a.content.value] else prev
  }

  /** Every kept picture is the content of a 200 answer, and a picture is
      kept for every such answer. */
  lemma {:induction false} KeptFacts(headings: seq<int>, reply: int -> Reply)
    ensures forall p :: p in Kept(headings, reply) ==>
      exists h :: h in headings && reply(h) == Answer(200, Some(p))
    ensures forall h :: h in headings && reply(h).Answer? && reply(h).status == 200 && reply(h).content.Some? ==>
      reply(h).content.value in Kept(headings, reply)
  {
    if |headings| > 0 {
      var init := headings[..|headings| - 1];
      var last := headings[|headings| - 1];
      KeptFacts(init, reply);
      var prev := Kept(init, reply);
      forall p | p in Kept(headings, reply)
        ensures exists h :: h in headings && reply(h) == Answer(200, Some(p))
      {
        if p in prev {
          var h :| h in init && reply(h) == Answer(200, Some(p));
          assert h in headings;
        } else {
          assert reply(last) == Answer(200, Some(p));
        }
      }
      assert forall h :: h in headings ==> h in init || h == last;
    }
  }

  /** The fetch loop both image getters share: one request per heading;
      an error or another status skips that heading. */
  method FetchAll(headings: seq<int>, reply: int -> Reply) returns (images: seq<Picture>)
    ensures images == Kept(headings, reply)
  {
    images := [];
    var k := 0;
    while k < |headings|
      invariant 0 <= k <= |headings|
      invariant images == Kept(headings[..k], reply)
    {
      assert headings[..k + 1][..k] == headings[..k];
      var a := reply(headings[k]);
      if a.Answer? && a.status == 200 && a.content.Some? {
        images := images + [a.content.value];
      }
      k := k + 1;
    }
    assert headings[..k] == headings;
  }

  /** `get_satellite_images`: the pictures kept over the satellite headings. */
  method GetSatelliteImages(views: int, reply: int -> Reply) returns (r: Result<seq<Picture>, Failure>)
    ensures Headings(views).Err? ==> r == Err(Headings(views).error)
    ensures Headings(views).Ok? ==> r == Ok(Kept(Headings(views).value, reply))
  {
    var headings := Headings(views);
    if headings.Err? {
      return Err(headings.error);
    }
    var images := FetchAll(headings.value, reply);
    return Ok(images);
  }

  /** `get_street_view_images`: the pictures kept at the four compass points. */
  method GetStreetViewImages(reply: int -> Reply) returns (images: seq<Picture>)
    ensures images == Kept(StreetHeadings, reply)
  {
    images := FetchAll(StreetHeadings, reply);
  }

  // ----------------------------------------------------------------- effects

  /** The cross-fade `create_transition` builds: frame `i` weighs the second
      picture by `i / frames`. */
  function TransitionFrames(a: Picture, b: Picture, frames: int): seq<Frame>
  {
    if frames <= 0 then []
    else seq(frames, i requires 0 <= i < frames => Blend(a, b, i as real / frames as real))
  }

  /** A transition has `frames` frames (none for no frames), starts with the
      first picture alone, and its weights rise strictly within [0, 1). */
  lemma TransitionWeights(a: Picture, b: Picture, frames: int)
    ensures |TransitionFrames(a, b, frames)| == if frames <= 0 then 0 else frames
    ensures frames > 0 ==> TransitionFrames(a, b, frames)[0] == Blend(a, b, 0.0)
    ensures forall i :: 0 <= i < |TransitionFrames(a, b, frames)| ==>
      var f := TransitionFrames(a, b, frames)[i];
      f.Blend? && f.first == a && f.second == b && 0.0 <= f.alpha < 1.0
    ensures forall i, j :: 0 <= i < j < |TransitionFrames(a, b, frames)| ==>
      TransitionFrames(a, b, frames)[i].alpha < TransitionFrames(a, b, frames)[j].alpha
  {
    if frames > 0 {
      var t := TransitionFrames(a, b, frames);
      forall i, j | 0 <= i < j < frames ensures t[i].alpha < t[j].alpha {
        DivMonotone(i, j, frames);
      }
      forall i | 0 <= i < frames ensures 0.0 <= t[i].alpha < 1.0 {
        DivMonotone(i, frames, frames);
      }
    }
  }

  lemma DivMonotone(i: nat, j: nat, n: nat)
    requires i < j && n > 0
    ensures i as real / n as real < j as real / n as real
    ensures j == n ==> j as real / n as real == 1.0
  {
  }

  datatype Effect = Zoom | Pan | Other

  function EffectOf(effectType: string): Effect
  {
    if effectType == "zoom" then Zoom else if effectType == "pan" then Pan else Other
  }

  function ZoomScale(i: nat, frames: nat): real
    requires frames > 0
  {
    1.0 + (i as real / frames as real * 0.3)
  }

  function PanShift(i: nat, frames: nat, w: nat): int
    requires frames > 0
  {
    Trunc(i as real / frames as real * w as real * 0.2)
  }

  /** The frames `create_drone_effect` builds for an effect. */
  function EffectFrames(p: Picture, frames: int, effect: Effect): seq<Frame>
  {
    if frames <= 0 || effect == Other then []
    else if effect == Zoom then seq(frames, i requires 0 <= i < frames => Zoomed(p, ZoomScale(i, frames)))
    else seq(frames, i requires 0 <= i < frames => Panned(p, PanShift(i, frames, Width(p))))
  }

  /** A zoom runs its scale strictly up from 1 and below 1.3; a pan's
      whole-pixel shift starts at 0, never decreases and stays below a fifth
      of the width; an unknown effect has no frames. */
  lemma EffectFacts(p: Picture, frames: int, effect: Effect)
    ensures effect == Other ==> EffectFrames(p, frames, effect) == []
    ensures effect != Other ==> |EffectFrames(p, frames, effect)| == if frames <= 0 then 0 else frames
    ensures effect == Zoom && frames > 0 ==>
      forall i :: 0 <= i < frames ==> 1.0 <= ZoomScale(i, frames) < 1.3
    ensures effect == Zoom && frames > 0 ==>
      forall i :: 0 <= i < frames - 1 ==> ZoomScale(i, frames) < ZoomScale(i + 1, frames)
    ensures effect == Pan && frames > 0 ==> PanShift(0, frames, Width(p)) == 0
    ensures effect == Pan && frames > 0 ==>
      forall i :: 0 <= i < frames ==>
        0 <= PanShift(i, frames, Width(p)) && (Width(p) > 0 ==> PanShift(i, frames, Width(p)) as real < Width(p) as real * 0.2)
    ensures effect == Pan && frames > 0 ==>
      forall i :: 0 <= i < frames - 1 ==> PanShift(i, frames, Width(p)) <= PanShift(i + 1, frames, Width(p))
  {
    if frames > 0 {
      var w := Width(p);
      forall i | 0 <= i < frames
        ensures 1.0 <= ZoomScale(i, frames) < 1.3
        ensures 0 <= PanShift(i, frames, w) && (w > 0 ==> PanShift(i, frames, w) as real < w as real * 0.2)
      {
        FrameBounds(i, frames, w);
      }
      forall i | 0 <= i < frames - 1
        ensures ZoomScale(i, frames) < ZoomScale(i + 1, frames)
        ensures PanShift(i, frames, w) <= PanShift(i + 1, frames, w)
      {
        FrameSteps(i, frames, w);
      }
    }
  }

  lemma FrameBounds(i: nat, frames: nat, w: nat)
    requires i < frames
    ensures 1.0 <= ZoomScale(i, frames) < 1.3
    ensures 0 <= PanShift(i, frames, w) && (w > 0 ==> PanShift(i, frames, w) as real < w as real * 0.2)
  {
    DivMonotone(i, frames, frames);
    var q, c := i as real / frames as real, w as real * 0.2;
    ScaledBelow(q, c);
    var x := i as real / frames as real * w as real * 0.2;
    assert x == q * c;
  }

  lemma FrameSteps(i: nat, frames: nat, w: nat)
    requires i + 1 < frames
    ensures ZoomScale(i, frames) < ZoomScale(i + 1, frames)
    ensures PanShift(i, frames, w) <= PanShift(i + 1, frames, w)
  {
    DivMonotone(i, i + 1, frames);
    var q, q', c := i as real / frames as real, (i + 1) as real / frames as real, w as real * 0.2;
    ScaledMonotone(q, q', c);
    assert i as real / frames as real * w as real * 0.2 == q * c;
    assert (i + 1) as real / frames as real * w as real * 0.2 == q' * c;
  }

  lemma ScaledBelow(x: real, c: real)
    requires 0.0 <= x < 1.0 && c >= 0.0
    ensures 0.0 <= x * c && (c > 0.0 ==> x * c < c) && (c == 0.0 ==> x * c == 0.0)
  {
  }

  lemma ScaledMonotone(x: real, y: real, c: real)
    requires 0.0 <= x <= y && c >= 0.0
    ensures 0.0 <= x * c <= y * c && Trunc(x * c) <= Trunc(y * c)
  {
    assert (y - x) * c >= 0.0;
  }

  /** `cv2.addWeighted` raises cv2.error on arrays of different sizes or
      channel counts; it is called only when there is a frame to make. */
  predicate BlendFails(a: Picture, b: Picture, frames: int)
  {
    frames > 0 && (Width(a) != Width(b) || Height(a) != Height(b) || Channels(a) != Channels(b))
  }

  /** `create_transition`, frame by frame; the first blend raises when the
      pictures do not match. */
  method CreateTransition(a: Picture, b: Picture, frames: int) returns (r: Result<seq<Frame>, VideoError>)
    ensures BlendFails(a, b, frames) ==> r == Err(BlendError)
    ensures !BlendFails(a, b, frames) ==> r == Ok(TransitionFrames(a, b, frames))
  {
    if frames > 0 && (Width(a) != Width(b) || Height(a) != Height(b) || Channels(a) != Channels(b)) {
      return Err(BlendError);
    }
    var fs: seq<Frame> := [];
    var i := 0;
    while i < frames
      invariant 0 <= i <= (if frames > 0 then frames else 0)
      invariant |fs| == i
      invariant forall k :: 0 <= k < i ==> frames > 0 && fs[k] == Blend(a, b, k as real / frames as real)
    {
      fs := fs + [Blend(a, b, i as real / frames as real)];
      i := i + 1;
    }
    if frames > 0 {
      assert fs == TransitionFrames(a, b, frames);
    }
    return Ok(fs);
  }

  /** `create_drone_effect`, frame by frame. */
  method CreateDroneEffect(p: Picture, frames: int, effectType: string) returns (r: seq<Frame>)
    ensures r == EffectFrames(p, frames, EffectOf(effectType))
  {
    r := [];
    var w := Width(p);
    if effectType == "zoom" {
      var i := 0;
      while i < frames
        invariant 0 <= i <= (if frames > 0 then frames else 0)
        invariant |r| == i
        invariant forall k :: 0 <= k < i ==> frames > 0 && r[k] == Zoomed(p, ZoomScale(k, frames))
      {
        r := r + [Zoomed(p, ZoomScale(i, frames))];
        i := i + 1;
      }
      if frames > 0 {
        assert r == EffectFrames(p, frames, Zoom);
      }
    } else if effectType == "pan" {
      var i := 0;
      while i < frames
        invariant 0 <= i <= (if frames > 0 then frames else 0)
        invariant |r| == i
        invariant forall k :: 0 <= k < i ==> frames > 0 && r[k] == Panned(p, PanShift(k, frames, w))
      {
        r := r + [Panned(p, PanShift(i, frames, w))];
        i := i + 1;
      }
      if frames > 0 {
        assert r == EffectFrames(p, frames, Pan);
      }
    }
  }

  // ------------------------------------------------------------------ video

  const EffectLength: nat := 60
  const TransitionLength: nat := 30

  /** Image `i`'s contribution: its drone clip, zoom for even and pan for
      odd positions, and the cross-fade to the next image unless it is last. */
  function Segment(images: seq<Picture>, i: nat): seq<Frame>
    requires i < |images|
  {
    EffectFrames(Enhanced(images[i]), EffectLength, if i % 2 == 0 then Zoom else Pan)
    + (if i < |images| - 1 then TransitionFrames(Enhanced(images[i]), Enhanced(images[i + 1]), TransitionLength) else [])
  }

  /** The frames of the first `k` images' segments, in order. */
  function Timeline(images: seq<Picture>, k: nat): seq<Frame>
    requires k <= |images|
  {
    if k == 0 then [] else Timeline(images, k - 1) + Segment(images, k - 1)
  }

  lemma SegmentLength(images: seq<Picture>, i: nat)
    requires i < |images|
    ensures |Segment(images, i)| == if i < |images| - 1 then EffectLength + TransitionLength else EffectLength
  {
    EffectFacts(Enhanced(images[i]), EffectLength, if i % 2 == 0 then Zoom else Pan);
    TransitionWeights(Enhanced(images[i]), Enhanced(images[(i + 1) % |images|]), TransitionLength);
  }

  /** Before the last image, every segment is 90 frames long, so segment `i`
      begins at frame `90 i`. */
  lemma {:induction false} TimelineLength(images: seq<Picture>, k: nat)
    requires k < |images|
    ensures |Timeline(images, k)| == k * (EffectLength + TransitionLength)
  {
    if k > 0 {
      TimelineLength(images, k - 1);
      SegmentLength(images, k - 1);
    }
  }

  /** Where image `i`'s drone clip starts. */
  function ClipStart(i: nat): nat
  {
    (EffectLength + TransitionLength) * i
  }

  /** Image `i`'s drone clip sits at `ClipStart(i)` in the finished timeline. */
  lemma ClipAt(images: seq<Picture>, i: nat)
    requires i < |images|
    ensures ClipStart(i) + EffectLength <= |Timeline(images, |images|)|
    ensures Timeline(images, |images|)[ClipStart(i)..ClipStart(i) + EffectLength]
         == EffectFrames(Enhanced(images[i]), EffectLength, if i % 2 == 0 then Zoom else Pan)
  {
    var n := |images|;
    var before, seg := Timeline(images, i), Segment(images, i);
    SegmentStartsWithClip(images, i);
    TimelinePrefix(images, i + 1, n);
    TimelineLength(images, i);
    SliceAfterPrefix(Timeline(images, n), before, seg, EffectLength);
  }

  /** Image `i`'s segment opens with its drone clip. */
  lemma SegmentStartsWithClip(images: seq<Picture>, i: nat)
    requires i < |images|
    ensures EffectLength <= |Segment(images, i)|
    ensures Segment(images, i)[..EffectLength]
         == EffectFrames(Enhanced(images[i]), EffectLength, if i % 2 == 0 then Zoom else Pan)
  {
    var e := EffectFrames(Enhanced(images[i]), EffectLength, if i % 2 == 0 then Zoom else Pan);
    EffectFacts(Enhanced(images[i]), EffectLength, if i % 2 == 0 then Zoom else Pan);
    assert |e| == EffectLength;
  }

  /** A slice that starts where a known prefix `before` ends reads from what
      follows it. */
  lemma SliceAfterPrefix<T>(whole: seq<T>, before: seq<T>, seg: seq<T>, k: nat)
    requires k <= |seg| && |before| + |seg| <= |whole|
    requires whole[..|before| + |seg|] == before + seg
    ensures whole[|before|..|before| + k] == seg[..k]
  {
    forall j | 0 <= j < k
      ensures whole[|before| + j] == seg[j]
    {
      assert whole[|before| + j] == (before + seg)[|before| + j];
    }
  }

  /** With the defaults, `n >= 1` images make `60 n + 30 (n - 1)` frames, and
      image `i`'s drone clip occupies frames `90 i` to `90 i + 59`. */
  lemma VideoShape(images: seq<Picture>)
    requires |images| >= 1
    ensures |Timeline(images, |images|)| == 60 * |images| + 30 * (|images| - 1)
    ensures forall i :: 0 <= i < |images| ==>
      (ClipStart(i) == 90 * i
      && Timeline(images, |images|)[ClipStart(i)..ClipStart(i) + 60]
         == EffectFrames(Enhanced(images[i]), 60, if i % 2 == 0 then Zoom else Pan))
  {
    var n := |images|;
    TimelineLength(images, n - 1);
    SegmentLength(images, n - 1);
    forall i | 0 <= i < n
      ensures Timeline(images, n)[ClipStart(i)..ClipStart(i) + 60]
           == EffectFrames(Enhanced(images[i]), 60, if i % 2 == 0 then Zoom else Pan)
    {
      ClipAt(images, i);
    }
  }

  /** A longer timeline extends a shorter one. */
  lemma {:induction false} TimelinePrefix(images: seq<Picture>, k: nat, m: nat)
    requires k <= m <= |images|
    ensures |Timeline(images, k)| <= |Timeline(images, m)|
    ensures Timeline(images, m)[..|Timeline(images, k)|] == Timeline(images, k)
    decreases m - k
  {
    if k < m {
      TimelinePrefix(images, k, m - 1);
      var a, b := Timeline(images, k), Timeline(images, m - 1);
      assert Timeline(images, m) == b + Segment(images, m - 1);
      assert (b + Segment(images, m - 1))[..|a|] == b[..|a|];
    }
  }

  /** The clip `generate_video` writes: its frames, rate and soundtrack. */
  datatype Video = Video(frames: seq<Frame>, fps: int, audio: Option<string>)

  /** What raises out of `generate_video`: `enhance_image` on a picture it
      cannot convert, a cross-fade between pictures that do not match,
      `ImageSequenceClip` on no frames (it looks at `sequence[0]`), and
      `ImageSequenceClip` reading `.shape` of a PIL frame. */
  datatype VideoError = EnhanceError | BlendError | EmptySequence | NotArrays

  /** What raises in pass `i` of the frame loop, if anything: enhancing
      image `i`, then enhancing image `i + 1` and blending the two. */
  function StepFailure(images: seq<Picture>, i: nat): Option<VideoError>
    requires i < |images|
  {
    if !Enhanceable(images[i]) then Some(EnhanceError)
    else if i < |images| - 1 && !Enhanceable(images[i + 1]) then Some(EnhanceError)
    else if i < |images| - 1 && BlendFails(Enhanced(images[i]), Enhanced(images[i + 1]), TransitionLength) then Some(BlendError)
    else None
  }

  /** The first failure in the first `k` passes of the loop. */
  function LoopFailure(images: seq<Picture>, k: nat): (r: Option<VideoError>)
    requires k <= |images|
    ensures r.Some? ==> r.value == EnhanceError || r.value == BlendError
  {
    if k == 0 then None
    else if LoopFailure(images, k - 1).Some? then LoopFailure(images, k - 1)
    else StepFailure(images, k - 1)
  }

  /** Every picture can be enhanced and each has the size of the next. */
  predicate Renderable(images: seq<Picture>)
  {
    (forall i :: 0 <= i < |images| ==> Enhanceable(images[i]))
    && (forall i :: 0 <= i < |images| - 1 ==>
          Width(images[i]) == Width(images[i + 1]) && Height(images[i]) == Height(images[i + 1]))
  }

  function Soundtrack(audioPath: Option<string>, audioExists: bool): Option<string>
  {
    if audioPath.Some? && audioPath.value != "" && audioExists then audioPath else None
  }

  /** `generate_video` with the frames handed to `ImageSequenceClip` as
      arrays: the first failure of the loop raises, no images raise in the
      clip, and otherwise the timeline is written with its soundtrack. */
  function Render(images: seq<Picture>, outputPath: string, fps: int, audioPath: Option<string>, audioExists: bool)
    : Result<(string, Video), VideoError>
  {
    var failure := LoopFailure(images, |images|);
    if failure.Some? then Err(failure.value)
    else if |images| == 0 then Err(EmptySequence)
    else Ok((outputPath, Video(Timeline(images, |images|), fps, Soundtrack(audioPath, audioExists))))
  }

  /** `generate_video` as written: the frames are PIL images, which
      `ImageSequenceClip` reads as arrays, so a loop that gets through still
      ends in an AttributeError. */
  function RenderAsWritten(images: seq<Picture>, outputPath: string, fps: int, audioPath: Option<string>, audioExists: bool)
    : Result<(string, Video), VideoError>
  {
    var failure := LoopFailure(images, |images|);
    if failure.Some? then Err(failure.value)
    else if |images| == 0 then Err(EmptySequence)
    else Err(NotArrays)
  }

  /** The loop gets through its first `k` passes exactly when none of them
      meets a picture it cannot enhance or a pair it cannot blend. */
  lemma {:induction false} LoopFailureNone(images: seq<Picture>, k: nat)
    requires k <= |images|
    ensures LoopFailure(images, k).None? <==>
      forall i :: 0 <= i < k ==> StepFailure(images, i).None?
  {
    if k > 0 {
      LoopFailureNone(images, k - 1);
    }
  }

  /** Once a pass raises, the later passes are not run. */
  lemma {:induction false} LoopFailureSticks(images: seq<Picture>, k: nat)
    requires k <= |images| && LoopFailure(images, k).Some?
    ensures LoopFailure(images, |images|) == LoopFailure(images, k)
    decreases |images| - k
  {
    if k < |images| {
      LoopFailureSticks(images, k + 1);
    }
  }

  /** The corrected call writes a video exactly for a non-empty list of
      matching pictures it can enhance, and raises the clip's IndexError
      exactly for no images. */
  lemma RenderOutcome(images: seq<Picture>, outputPath: string, fps: int, audioPath: Option<string>, audioExists: bool)
    ensures Render(images, outputPath, fps, audioPath, audioExists).Ok? <==> |images| >= 1 && Renderable(images)
    ensures Render(images, outputPath, fps, audioPath, audioExists) == Err(EmptySequence) <==> |images| == 0
    ensures Render(images, outputPath, fps, audioPath, audioExists).Ok? ==>
      Render(images, outputPath, fps, audioPath, audioExists).value
        == (outputPath, Video(Timeline(images, |images|), fps, Soundtrack(audioPath, audioExists)))
  {
    var n := |images|;
    LoopFailureNone(images, n);
    if LoopFailure(images, n).None? {
      forall i | 0 <= i < n
        ensures Enhanceable(images[i])
      {
        assert StepFailure(images, i).None?;
      }
      forall i | 0 <= i < n - 1
        ensures Width(images[i]) == Width(images[i + 1]) && Height(images[i]) == Height(images[i + 1])
      {
        assert StepFailure(images, i).None?;
      }
    }
  }

  /** Two pictures of different sizes raise in the first cross-fade, as
      640x640 and 800x600 satellite and street views would. */
  lemma MismatchedSizesRaise(outputPath: string, fps: int, audioPath: Option<string>, audioExists: bool)
    ensures Render([Source(0, 640, 640, 3), Source(1, 800, 600, 3)], outputPath, fps, audioPath, audioExists) == Err(BlendError)
  {
    var images := [Source(0, 640, 640, 3), Source(1, 800, 600, 3)];
    assert StepFailure(images, 0) == Some(BlendError);
    assert LoopFailure(images, 1) == Some(BlendError);
  }

  /** As written, no call writes a video: every input that the corrected call
      renders raises the AttributeError instead, and every other one raises
      as the corrected call does. */
  lemma PilFramesNeverRender(images: seq<Picture>, outputPath: string, fps: int, audioPath: Option<string>, audioExists: bool)
    ensures RenderAsWritten(images, outputPath, fps, audioPath, audioExists).Err?
    ensures |images| >= 1 && Renderable(images) ==> RenderAsWritten(images, outputPath, fps, audioPath, audioExists) == Err(NotArrays)
    ensures !(|images| >= 1 && Renderable(images)) ==>
      RenderAsWritten(images, outputPath, fps, audioPath, audioExists) == Render(images, outputPath, fps, audioPath, audioExists)
  {
    RenderOutcome(images, outputPath, fps, audioPath, audioExists);
  }

  /** One pass of the frame loop: image `i`'s drone clip and, unless it is
      the last, the cross-fade to the next image, or the failure raised on
      the way. */
  method ImageSegment(images: seq<Picture>, i: nat) returns (r: Result<seq<Frame>, VideoError>)
    requires i < |images|
    ensures StepFailure(images, i).Some? ==> r == Err(StepFailure(images, i).value)
    ensures StepFailure(images, i).None? ==> r == Ok(Segment(images, i))
  {
    if !(Channels(images[i]) == 3 || Channels(images[i]) == 4) {
      return Err(EnhanceError);
    }
    var enhanced := Enhanced(images[i]);
    var frames := CreateDroneEffect(enhanced, EffectLength, if i % 2 == 0 then "zoom" else "pan");
    if i < |images| - 1 {
      if !(Channels(images[i + 1]) == 3 || Channels(images[i + 1]) == 4) {
        return Err(EnhanceError);
      }
      var transition := CreateTransition(enhanced, Enhanced(images[i + 1]), TransitionLength);
      if transition.Err? {
        return Err(transition.error);
      }
      frames := frames + transition.value;
    } else {
      assert frames + [] == frames;
    }
    return Ok(frames);
  }

  /** `generate_video`: enhances each image, appends its drone clip and the
      cross-fade to the next, attaches the soundtrack when the path is given
      and exists, and writes the clip to `outputPath`; each failure raises
      out of it. The frames are handed to the clip as arrays (see
      `RenderAsWritten` for the call as written). */
  method GenerateVideo(images: seq<Picture>, outputPath: string, fps: int, audioPath: Option<string>, audioExists: bool)
    returns (r: Result<(string, Video), VideoError>)
    ensures r == Render(images, outputPath, fps, audioPath, audioExists)
  {
    var all: seq<Frame> := [];
    var i := 0;
    while i < |images|
      invariant 0 <= i <= |images|
      invariant LoopFailure(images, i).None?
      invariant all == Timeline(images, i)
    {
      var segment := ImageSegment(images, i);
      if segment.Err? {
        LoopFailureSticks(images, i + 1);
        return Err(segment.error);
      }
      all := all + segment.value;
      i := i + 1;
    }
    if |images| == 0 {
      return Err(EmptySequence);
    }
    var audio := if audioPath.Some? && audioPath.value != "" && audioExists then audioPath else None;
    return Ok((outputPath, Video(all, fps, audio)));
  }
}
