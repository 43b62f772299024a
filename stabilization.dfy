/** `stabilize_video_sequence` and `smooth_trajectory`: frame-to-frame
    camera motion is collected into a trajectory, smoothed with a centred
    moving average, and each frame after the first is warped by the
    difference between the smoothed and the raw motion. Optical flow and
    the affine estimate are replaced by one observation per frame pair;
    warping is symbolic. */
module Stabilization {
  import opened Base

  /** One trajectory row: translation and rotation between two frames. */
  datatype Motion = Motion(dx: real, dy: real, da: real)

  const Zero := Motion(0.0, 0.0, 0.0)

  function Add(a: Motion, b: Motion): Motion
  {
    Motion(a.dx + b.dx, a.dy + b.dy, a.da + b.da)
  }

  function Sub(a: Motion, b: Motion): Motion
  {
    Motion(a.dx - b.dx, a.dy - b.dy, a.da - b.da)
  }

  function Scale(a: Motion, c: real): Motion
  {
    Motion(a.dx * c, a.dy * c, a.da * c)
  }

  /** A frame of the sequence: an original, or a frame warped by a correction. */
  datatype Frame = Raw(id: nat) | Warped(original: Frame, correction: Motion)

  /** What tracking finds for the pair (frame i-1, frame i). */
  datatype PairObservation =
    | TooFewPoints      // fewer than 10 points tracked
    | NoTransform       // the partial affine estimate returned None
    | Rigid(m: Motion)  // translation and angle of the estimate

  // ---------------------------------------------------------------------
  // Moving average

  function Sum(s: seq<Motion>): Motion
  {
    if s == [] then Zero else Add(Sum(s[..|s| - 1]), s[|s| - 1])
  }

  /** `np.mean(..., axis=0)`: the component-wise average of a non-empty slice. */
  function Mean(s: seq<Motion>): Motion
    requires |s| > 0
  {
    Scale(Sum(s), 1.0 / |s| as real)
  }

  /** First index of the window around `i`: max(0, i - w // 2). */
  function WindowStart(i: nat, w: nat): nat
  {
    if i < w / 2 then 0 else i - w / 2
  }

  /** One past the last index of the window around `i`: min(len, i + w // 2 + 1). */
  function WindowEnd(len: nat, i: nat, w: nat): nat
  {
    if len < i + w / 2 + 1 then len else i + w / 2 + 1
  }

  /** The window is non-empty, contains `i`, lies within the trajectory and
      spans at most `w + 1` rows. */
  lemma WindowBounds(len: nat, i: nat, w: nat)
    requires i < len
    ensures 0 <= WindowStart(i, w) <= i < WindowEnd(len, i, w) <= len
    ensures WindowEnd(len, i, w) - WindowStart(i, w) <= w + 1
  {
  }

  /** The smoothed trajectory as `smooth_trajectory` returns it: a copy when
      it has at most `w` rows, otherwise each row is the mean of the ORIGINAL
      rows in its window. */
  function Smoothed(t: seq<Motion>, w: nat): (r: seq<Motion>)
    ensures |r| == |t|
    ensures |t| <= w ==> r == t
  {
    if |t| <= w then t
    else seq(|t|, i requires 0 <= i < |t| => Mean(t[WindowStart(i, w)..WindowEnd(|t|, i, w)]))
  }

  /** `smooth_trajectory`: overwrites each row of a copy in turn, always
      averaging the untouched input. */
  method SmoothTrajectory(trajectory: seq<Motion>, w: nat) returns (smoothed: seq<Motion>)
    ensures smoothed == Smoothed(trajectory, w)
  {
    smoothed := trajectory;
    if |trajectory| <= w {
      return;
    }
    var i := 0;
    while i < |trajectory|
      invariant 0 <= i <= |trajectory| && |smoothed| == |trajectory|
      invariant forall k :: 0 <= k < i ==> smoothed[k] == Smoothed(trajectory, w)[k]
      invariant forall k :: i <= k < |trajectory| ==> smoothed[k] == trajectory[k]
    {
      var start := if i < w / 2 then 0 else i - w / 2;
      var end := if |trajectory| < i + w / 2 + 1 then |trajectory| else i + w / 2 + 1;
      SmoothedAt(trajectory, w, i);
      assert start == WindowStart(i, w) && end == WindowEnd(|trajectory|, i, w);
      smoothed := smoothed[i := Mean(trajectory[start..end])];
      i := i + 1;
    }
    SmoothedEqual(trajectory, w, smoothed);
  }

  lemma SmoothedAt(t: seq<Motion>, w: nat, i: nat)
    requires w < |t| && i < |t|
    ensures WindowStart(i, w) < WindowEnd(|t|, i, w) <= |t|
    ensures Smoothed(t, w)[i] == Mean(t[WindowStart(i, w)..WindowEnd(|t|, i, w)])
  {
  }

  lemma SmoothedEqual(t: seq<Motion>, w: nat, s: seq<Motion>)
    requires |s| == |t| && forall k :: 0 <= k < |t| ==> s[k] == Smoothed(t, w)[k]
    ensures s == Smoothed(t, w)
  {
  }

  lemma {:induction false} SumConstant(s: seq<Motion>, c: Motion)
    requires forall k :: 0 <= k < |s| ==> s[k] == c
    ensures Sum(s) == Scale(c, |s| as real)
  {
    if s != [] {
      SumConstant(s[..|s| - 1], c);
    }
  }

  lemma MeanConstant(s: seq<Motion>, c: Motion)
    requires |s| > 0
    requires forall k :: 0 <= k < |s| ==> s[k] == c
    ensures Mean(s) == c
  {
    SumConstant(s, c);
    var n := |s| as real;
    assert n * (1.0 / n) == 1.0;
    assert c.dx * n * (1.0 / n) == c.dx;
    assert c.dy * n * (1.0 / n) == c.dy;
    assert c.da * n * (1.0 / n) == c.da;
  }

  /** A trajectory that does not change is left as it is: a steady camera
      motion needs no correction. */
  lemma ConstantIsFixedPoint(t: seq<Motion>, w: nat, c: Motion)
    requires forall k :: 0 <= k < |t| ==> t[k] == c
    ensures Smoothed(t, w) == t
  {
    if |t| > w {
      forall i | 0 <= i < |t|
        ensures Smoothed(t, w)[i] == t[i]
      {
        WindowBounds(|t|, i, w);
        MeanConstant(t[WindowStart(i, w)..WindowEnd(|t|, i, w)], c);
      }
    }
  }

  // ---------------------------------------------------------------------
  // Trajectory bookkeeping

  /** Row `k` of the trajectory (the pair of frames k and k+1) after the
      first `k+1` observations. */
  function Row(obs: seq<PairObservation>, k: nat): Motion
    requires k < |obs|
  {
    match obs[k]
    case TooFewPoints => Zero
    case NoTransform => if k == 0 then Zero else Row(obs, k - 1)
    case Rigid(m) => m
  }

  function TrajectoryOf(obs: seq<PairObservation>): (t: seq<Motion>)
    ensures |t| == |obs|
  {
    seq(|obs|, k requires 0 <= k < |obs| => Row(obs, k))
  }

  /** The trajectory loop: a pre-allocated array of zero rows filled in place. */
  method FillTrajectory(obs: seq<PairObservation>) returns (trajectory: seq<Motion>)
    ensures trajectory == TrajectoryOf(obs)
  {
    var rows := new Motion[|obs|](_ => Zero);
    var i := 1;
    while i <= |obs|
      invariant 1 <= i <= |obs| + 1
      invariant forall k :: 0 <= k < i - 1 ==> rows[k] == Row(obs, k)
      invariant forall k :: i - 1 <= k < |obs| ==> rows[k] == Zero
    {
      match obs[i - 1] {
        case TooFewPoints =>
        case NoTransform =>
          rows[i - 1] := if i > 1 then rows[i - 2] else Zero;
        case Rigid(m) =>
          rows[i - 1] := m;
      }
      i := i + 1;
    }
    trajectory := rows[..];
  }

  /** A pair with too few points leaves its row at zero; a failed estimate
      repeats the row before it (zero for the first pair); an estimate is
      stored as it is. */
  lemma RowRules(obs: seq<PairObservation>, k: nat)
    requires k < |obs|
    ensures obs[k].TooFewPoints? ==> TrajectoryOf(obs)[k] == Zero
    ensures obs[k].NoTransform? && k == 0 ==> TrajectoryOf(obs)[k] == Zero
    ensures obs[k].NoTransform? && k > 0 ==> TrajectoryOf(obs)[k] == TrajectoryOf(obs)[k - 1]
    ensures obs[k].Rigid? ==> TrajectoryOf(obs)[k] == obs[k].m
  {
  }

  // ---------------------------------------------------------------------
  // The whole stabiliser

  /** The output of `stabilize_video_sequence`. `initialPoints` is the
      number of features detected in the first frame (None when detection
      finds nothing); `obs` has one observation per pair of frames. */
  function Stabilized(frames: seq<Frame>, w: nat, initialPoints: Option<nat>, obs: seq<PairObservation>): seq<Frame>
    requires |frames| < 3 || |obs| == |frames| - 1
  {
    if |frames| < 3 || initialPoints.None? || initialPoints.value < 10 then frames
    else
      var t := TrajectoryOf(obs);
      var s := Smoothed(t, w);
      seq(|frames|, i requires 0 <= i < |frames| =>
        if i == 0 then frames[0] else Warped(frames[i], Sub(s[i - 1], t[i - 1])))
  }

  /** `stabilize_video_sequence`: the guards, the trajectory loop, the
      smoothing, and the output list built by appending. */
  method StabilizeVideoSequence(frames: seq<Frame>, w: nat, initialPoints: Option<nat>, obs: seq<PairObservation>)
    returns (out: seq<Frame>)
    requires |frames| < 3 || |obs| == |frames| - 1
    ensures out == Stabilized(frames, w, initialPoints, obs)
  {
    if |frames| < 3 {
      return frames;
    }
    if initialPoints.None? || initialPoints.value < 10 {
      return frames;
    }
    var trajectory := FillTrajectory(obs);
    var smoothed := SmoothTrajectory(trajectory, w);
    out := [frames[0]];
    var i := 1;
    while i < |frames|
      invariant 1 <= i <= |frames|
      invariant out == Stabilized(frames, w, initialPoints, obs)[..i]
    {
      var difference := Sub(smoothed[i - 1], trajectory[i - 1]);
      out := out + [Warped(frames[i], difference)];
      i := i + 1;
    }
  }

  /** Too few frames or too few features: the input comes back unchanged. */
  lemma PassThrough(frames: seq<Frame>, w: nat, initialPoints: Option<nat>, obs: seq<PairObservation>)
    requires |frames| < 3 || |obs| == |frames| - 1
    requires |frames| < 3 || initialPoints.None? || initialPoints.value < 10
    ensures Stabilized(frames, w, initialPoints, obs) == frames
  {
  }

  /** Same length, first frame untouched, frame i warped by
      smoothed[i-1] - trajectory[i-1]. */
  lemma StabilizedShape(frames: seq<Frame>, w: nat, initialPoints: Option<nat>, obs: seq<PairObservation>)
    requires |frames| >= 3 && |obs| == |frames| - 1
    requires initialPoints.Some? && initialPoints.value >= 10
    ensures var out := Stabilized(frames, w, initialPoints, obs);
      |out| == |frames| && out[0] == frames[0]
      && forall i :: 1 <= i < |frames| ==>
           out[i] == Warped(frames[i], Sub(Smoothed(TrajectoryOf(obs), w)[i - 1], TrajectoryOf(obs)[i - 1]))
  {
  }

  /** A camera moving steadily (the same estimate for every pair) gets a zero
      correction on every frame. */
  lemma SteadyMotionIsKept(frames: seq<Frame>, w: nat, initialPoints: Option<nat>, obs: seq<PairObservation>, c: Motion)
    requires |frames| >= 3 && |obs| == |frames| - 1
    requires initialPoints.Some? && initialPoints.value >= 10
    requires forall k :: 0 <= k < |obs| ==> obs[k] == Rigid(c)
    ensures forall i :: 1 <= i < |frames| ==>
      Stabilized(frames, w, initialPoints, obs)[i] == Warped(frames[i], Zero)
  {
    var t := TrajectoryOf(obs);
    assert forall k :: 0 <= k < |t| ==> t[k] == c;
    ConstantIsFixedPoint(t, w, c);
    var out := Stabilized(frames, w, initialPoints, obs);
    forall i | 1 <= i < |frames|
      ensures out[i] == Warped(frames[i], Zero)
    {
      assert out[i] == Warped(frames[i], Sub(Smoothed(t, w)[i - 1], t[i - 1]));
      assert Sub(t[i - 1], t[i - 1]) == Zero;
    }
  }
}
