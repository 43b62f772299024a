/** Text and logo overlays on video frames: where `add_text_overlay` puts
    the caption and its translucent box, how `add_logo_overlay` sizes and
    places the logo and scales its alpha, and the frame loop of
    `apply_overlays_to_video_frames`. Drawing, fonts and compositing are
    PIL's; a font's own measurement of the text is a parameter, and a frame
    is an opaque picture with the list of overlays laid on it. Python's `/`
    is real division here and `int()` is truncation toward zero. */
module Overlay {
  import opened Base

  /** The keyword options of `add_text_overlay` (the colour is left out). */
  datatype TextOptions = TextOptions(position: string, fontSize: int, bgOpacity: real, padding: int, fontPath: Option<string>)

  const DefaultText := TextOptions("bottom", 24, 0.5, 10, None)

  /** The caption's layout: the font size used, the text box, its top-left
      corner, the background rectangle and the background's alpha. */
  datatype TextPlan = TextPlan(fontSize: int, width: real, height: real, x: real, y: real,
                               box: (real, real, real, real), alpha: int)

  /** The text position table; an unknown position is placed like "bottom". */
  function TextPosition(position: string, width: int, height: int, tw: real, th: real, padding: int): (real, real)
  {
    var w, h, p := width as real, height as real, padding as real;
    if position == "top" then ((w - tw) / 2.0, p)
    else if position == "bottom" then ((w - tw) / 2.0, h - th - p)
    else if position == "top-left" then (p, p)
    else if position == "top-right" then (w - tw - p, p)
    else if position == "bottom-left" then (p, h - th - p)
    else if position == "bottom-right" then (w - tw - p, h - th - p)
    else if position == "center" then ((w - tw) / 2.0, (h - th) / 2.0)
    else ((w - tw) / 2.0, h - th - p)
  }

  /** The placement rules: centred captions are centred horizontally,
      right-hand ones end `padding` before the right edge, bottom ones end
      `padding` above the bottom edge, top ones start `padding` below the top,
      and an unknown position is "bottom". */
  lemma TextPositionRules(position: string, width: int, height: int, tw: real, th: real, padding: int)
    ensures var (x, y) := TextPosition(position, width, height, tw, th, padding);
      (position in {"top", "bottom", "center"} ==> x + tw / 2.0 == width as real / 2.0)
      && (position in {"top-right", "bottom-right"} ==> x + tw + padding as real == width as real)
      && (position in {"top-left", "bottom-left"} ==> x == padding as real)
      && (position in {"bottom", "bottom-left", "bottom-right"} ==> y + th + padding as real == height as real)
      && (position in {"top", "top-left", "top-right"} ==> y == padding as real)
      && (position == "center" ==> y + th / 2.0 == height as real / 2.0)
    ensures position !in {"top", "bottom", "top-left", "top-right", "bottom-left", "bottom-right", "center"} ==>
      TextPosition(position, width, height, tw, th, padding) == TextPosition("bottom", width, height, tw, th, padding)
  {
  }

  /** `add_text_overlay`'s arithmetic. The size given stays only when the
      font path is non-empty and names a loadable font (`fonts`); otherwise
      the default font and size 16 are used. Without a measuring method
      (`measured` None) the box is estimated from the size and the length. */
  function PlanText(width: int, height: int, text: string, o: TextOptions, fonts: set<string>,
                    measured: Option<(real, real)>): (plan: TextPlan)
    ensures plan.fontSize == if o.fontPath.Some? && o.fontPath.value != "" && o.fontPath.value in fonts then o.fontSize else 16
    ensures measured.None? ==>
              plan.width == plan.fontSize as real * |text| as real * 0.6 && plan.height == plan.fontSize as real * 1.5
    ensures (plan.x, plan.y) == TextPosition(o.position, width, height, plan.width, plan.height, o.padding)
    ensures plan.box.2 - plan.box.0 == plan.width + 2.0 * o.padding as real
    ensures plan.box.3 - plan.box.1 == plan.height + 2.0 * o.padding as real
    ensures plan.box.0 + o.padding as real == plan.x && plan.box.1 + o.padding as real == plan.y
    ensures 0.0 <= o.bgOpacity <= 1.0 ==> 0 <= plan.alpha <= 255
    ensures o.bgOpacity == 0.5 ==> plan.alpha == 127
  {
    var size := if o.fontPath.Some? && o.fontPath.value != "" && o.fontPath.value in fonts then o.fontSize else 16;
    var (tw, th) := if measured.Some? then measured.value else (size as real * |text| as real * 0.6, size as real * 1.5);
    var (x, y) := TextPosition(o.position, width, height, tw, th, o.padding);
    var p := o.padding as real;
    TextPlan(size, tw, th, x, y, (x - p, y - p, x + tw + p, y + th + p), Trunc(255.0 * o.bgOpacity))
  }

  // ------------------------------------------------------------------ logo

  /** The keyword options of `add_logo_overlay`. */
  datatype LogoOptions = LogoOptions(position: string, sizePercent: real, padding: int, opacity: real)

  const DefaultLogo := LogoOptions("bottom-right", 15.0, 10, 0.8)

  /** `int(width * size_percent / 100)` and `int(logo.height * logo_width / logo.width)`;
      a logo of width 0 raises ZeroDivisionError. */
  function LogoSize(width: int, sizePercent: real, logoWidth: int, logoHeight: int): Option<(int, int)>
  {
    if logoWidth == 0 then None
    else
      var lw := Trunc(width as real * sizePercent / 100.0);
      Some((lw, Trunc((logoHeight * lw) as real / logoWidth as real)))
  }

  /** The logo is a fixed share of the frame width and keeps the logo's
      aspect ratio up to truncation. */
  lemma LogoAspect(width: int, sizePercent: real, logoWidth: int, logoHeight: int)
    requires width >= 0 && sizePercent >= 0.0 && logoWidth > 0 && logoHeight >= 0
    ensures LogoSize(width, sizePercent, logoWidth, logoHeight).Some?
    ensures var (lw, lh) := LogoSize(width, sizePercent, logoWidth, logoHeight).value;
      0 <= lw && lw as real <= width as real * sizePercent / 100.0 < lw as real + 1.0
      && 0 <= lh && lh * logoWidth <= logoHeight * lw < (lh + 1) * logoWidth
  {
    var lw := Trunc(width as real * sizePercent / 100.0);
    TruncOfQuotient(logoHeight * lw, logoWidth);
  }

  /** The logo's top-left corner as pasted (`int()` of each coordinate);
      an unknown position is bottom-right. */
  function LogoPosition(position: string, width: int, height: int, lw: int, lh: int, padding: int): (int, int)
  {
    if position == "top-left" then (padding, padding)
    else if position == "top-right" then (width - lw - padding, padding)
    else if position == "bottom-left" then (padding, height - lh - padding)
    else if position == "bottom-right" then (width - lw - padding, height - lh - padding)
    else if position == "center" then (Trunc((width - lw) as real / 2.0), Trunc((height - lh) as real / 2.0))
    else (width - lw - padding, height - lh - padding)
  }

  /** A logo that fits with its padding is pasted inside the frame, at the
      named corner inset by `padding`, or in the middle. */
  lemma LogoInside(position: string, width: int, height: int, lw: int, lh: int, padding: int)
    requires 0 <= padding && 0 <= lw && 0 <= lh && lw + 2 * padding <= width && lh + 2 * padding <= height
    ensures var (x, y) := LogoPosition(position, width, height, lw, lh, padding);
      0 <= x && x + lw <= width && 0 <= y && y + lh <= height
      && (position == "top-left" ==> x == padding && y == padding)
      && (position !in {"top-left", "top-right", "bottom-left", "center"} ==>
            x + lw + padding == width && y + lh + padding == height)
      && (position == "center" ==> x <= width - lw - x <= x + 1 && y <= height - lh - y <= y + 1)
  {
  }

  /** `a.point(lambda x: x * opacity)` on the logo's alpha band, before the
      lookup table's values are stored back as 8-bit levels. */
  function ScaledAlpha(alpha: seq<nat>, opacity: real): (r: seq<real>)
    ensures |r| == |alpha|
    ensures forall i :: 0 <= i < |alpha| ==> r[i] == alpha[i] as real * opacity
  {
    seq(|alpha|, i requires 0 <= i < |alpha| => alpha[i] as real * opacity)
  }

  /** An opacity in [0, 1] never raises an alpha level, and opacity 1
      keeps every level. */
  lemma ScaledAlphaBounds(alpha: seq<nat>, opacity: real)
    requires 0.0 <= opacity <= 1.0
    ensures forall i :: 0 <= i < |alpha| ==> 0.0 <= ScaledAlpha(alpha, opacity)[i] <= alpha[i] as real
    ensures opacity == 1.0 ==> forall i :: 0 <= i < |alpha| ==> ScaledAlpha(alpha, opacity)[i] == alpha[i] as real
  {
    forall i | 0 <= i < |alpha|
      ensures 0.0 <= ScaledAlpha(alpha, opacity)[i] <= alpha[i] as real
    {
      var a := alpha[i] as real;
      MulNonNegative(a, opacity);
      MulNonNegative(a, 1.0 - opacity);
      assert a * (1.0 - opacity) == a - a * opacity;
    }
  }

  // ---------------------------------------------------------------- frames

  /** One overlay laid on a frame, with the options it was laid with. */
  datatype Layer = TextLayer(text: string, textOptions: TextOptions) | LogoLayer(logo: nat, logoOptions: LogoOptions)

  /** An opaque frame and the overlays laid on it, oldest first. */
  datatype Frame = Frame(id: nat, layers: seq<Layer>)

  /** One pass of the frame loop: the caption first, then the logo; missing
      options (None, or an empty dictionary) mean the defaults. */
  function Overlaid(f: Frame, text: Option<string>, textOptions: Option<TextOptions>,
                    logo: Option<nat>, logoOptions: Option<LogoOptions>): Frame
  {
    var withText := if text.Some? then [TextLayer(text.value, if textOptions.Some? then textOptions.value else DefaultText)] else [];
    var withLogo := if logo.Some? then [LogoLayer(logo.value, if logoOptions.Some? then logoOptions.value else DefaultLogo)] else [];
    f.(layers := f.layers + withText + withLogo)
  }

  /** `apply_overlays_to_video_frames`. */
  method ApplyOverlaysToVideoFrames(frames: seq<Frame>, text: Option<string>, textOptions: Option<TextOptions>,
                                   logo: Option<nat>, logoOptions: Option<LogoOptions>)
    returns (processed: seq<Frame>)
    ensures text.None? && logo.None? ==> processed == frames
    ensures |processed| == |frames|
    ensures forall i :: 0 <= i < |frames| ==> processed[i] == Overlaid(frames[i], text, textOptions, logo, logoOptions)
  {
    if text.None? && logo.None? {
      OverlaidNothing(frames, textOptions, logoOptions);
      return frames;
    }
    processed := [];
    for i := 0 to |frames|
      invariant |processed| == i
      invariant forall k :: 0 <= k < i ==> processed[k] == Overlaid(frames[k], text, textOptions, logo, logoOptions)
    {
      var f := frames[i];
      if text.Some? {
        f := f.(layers := f.layers + [TextLayer(text.value, if textOptions.Some? then textOptions.value else DefaultText)]);
      }
      if logo.Some? {
        f := f.(layers := f.layers + [LogoLayer(logo.value, if logoOptions.Some? then logoOptions.value else DefaultLogo)]);
      }
      processed := processed + [f];
    }
  }

  /** With neither overlay a frame is unchanged. */
  lemma OverlaidNothing(frames: seq<Frame>, textOptions: Option<TextOptions>, logoOptions: Option<LogoOptions>)
    ensures forall i :: 0 <= i < |frames| ==> Overlaid(frames[i], None, textOptions, None, logoOptions) == frames[i]
  {
    forall i | 0 <= i < |frames|
      ensures Overlaid(frames[i], None, textOptions, None, logoOptions) == frames[i]
    {
      assert frames[i].layers + [] + [] == frames[i].layers;
    }
  }

  /** Each frame gets exactly one new layer per overlay asked for, the
      caption below the logo, and the frame itself is kept. */
  lemma OverlayOrder(f: Frame, text: string, logo: nat, textOptions: Option<TextOptions>, logoOptions: Option<LogoOptions>)
    ensures var g := Overlaid(f, Some(text), textOptions, Some(logo), logoOptions);
      g.id == f.id && |g.layers| == |f.layers| + 2 && g.layers[..|f.layers|] == f.layers
      && g.layers[|f.layers|].TextLayer? && g.layers[|f.layers| + 1].LogoLayer?
      && (textOptions.None? ==> g.layers[|f.layers|].textOptions == DefaultText)
      && (logoOptions.None? ==> g.layers[|f.layers| + 1].logoOptions == DefaultLogo)
  {
  }
}
