/** Property borders on map images, in the three places that draw them:
    the short-video engine's map module (a "#" colour with all leading
    hashes stripped, an inset rectangle by width and height ratio, manual
    polygons and a highlighted area), and the two image-processing modules
    (fixed hex positions, corners at `ratio` and `1 - ratio`, the older one
    asking the colour library first). Python's `int(text, 16)` is modelled
    for the two-character slices these calls make, over ASCII; the images
    are opaque and OpenCV's drawing is recorded, not performed. */
module PropertyBorders {
  import opened Base

  datatype Picture = Picture(id: nat, mode: string)

  /** A colour as handed to OpenCV: blue, green, red. */
  datatype Bgr = Bgr(b: int, g: int, r: int)

  /** The map module passes a colour that is not a "#" string on unchanged. */
  datatype ColorValue = Parsed(bgr: Bgr) | AsGiven(text: string)

  datatype ColorError = ValueError

  // ------------------------------------------------------------ hex parsing

  predicate IsHexDigit(c: char)
  {
    '0' <= c <= '9' || 'a' <= c <= 'f' || 'A' <= c <= 'F'
  }

  function HexValue(c: char): (v: int)
    requires IsHexDigit(c)
    ensures 0 <= v < 16
  {
    if '0' <= c <= '9' then c as int - '0' as int
    else if 'a' <= c <= 'f' then c as int - 'a' as int + 10
    else c as int - 'A' as int + 10
  }

  /** The characters `int()` strips around its argument (the ASCII ones). */
  predicate IsSpace(c: char)
  {
    c == ' ' || c == '\t' || c == '\n' || c == '\r' || c == '\U{000B}' || c == '\U{000C}'
    || ('\U{001C}' <= c <= '\U{001F}')
  }

  function Strip(s: string): (r: string)
    ensures |r| <= |s|
    decreases |s|
  {
    if |s| > 0 && IsSpace(s[0]) then Strip(s[1..])
    else if |s| > 0 && IsSpace(s[|s| - 1]) then Strip(s[..|s| - 1])
    else s
  }

  /** `int(t, 16)` for a slice of at most two characters: surrounding
      whitespace is dropped, a sign may precede a single digit, and
      anything else (an empty slice, a lone sign, "0x" without digits, an
      underscore, a non-hex character) is a ValueError. */
  function ParsePair(t: string): (v: Option<int>)
    requires |t| <= 2
    ensures v.Some? ==> -15 <= v.value <= 255
  {
    var u := Strip(t);
    if |u| == 0 then None
    else if u[0] == '+' || u[0] == '-' then
      if |u| == 2 && IsHexDigit(u[1]) then Some(if u[0] == '-' then -HexValue(u[1]) else HexValue(u[1])) else None
    else if |u| == 1 then (if IsHexDigit(u[0]) then Some(HexValue(u[0])) else None)
    else if IsHexDigit(u[0]) && IsHexDigit(u[1]) then Some(16 * HexValue(u[0]) + HexValue(u[1]))
    else None
  }

  /** Two hex digits are read as one byte, high digit first. */
  lemma ParsePairDigits(t: string)
    requires |t| == 2 && IsHexDigit(t[0]) && IsHexDigit(t[1])
    ensures ParsePair(t) == Some(16 * HexValue(t[0]) + HexValue(t[1]))
    ensures 0 <= ParsePair(t).value <= 255
  {
    assert Strip(t) == t;
  }

  /** Python's `s[i:j]` for `0 <= i <= j`: clipped to the string. */
  function Slice(s: string, i: nat, j: nat): (r: string)
    requires i <= j
    ensures |r| <= j - i
  {
    var lo := if i <= |s| then i else |s|;
    var hi := if j <= |s| then j else |s|;
    s[lo..hi]
  }

  function LStripHash(s: string): (r: string)
    ensures |r| <= |s| && (|r| > 0 ==> r[0] != '#')
    ensures r == s[|s| - |r|..]
  {
    if |s| > 0 && s[0] == '#' then LStripHash(s[1..]) else s
  }

  /** Three slices read as red, green and blue, handed on as blue, green, red. */
  function PairsToBgr(p0: string, p1: string, p2: string): Result<Bgr, ColorError>
    requires |p0| <= 2 && |p1| <= 2 && |p2| <= 2
  {
    var r := ParsePair(p0);
    var g := ParsePair(p1);
    var b := ParsePair(p2);
    if r.Some? && g.Some? && b.Some? then Ok(Bgr(b.value, g.value, r.value)) else Err(ValueError)
  }

  /** `int(c[i:i+2], 16)` for `i` in 0, 2, 4. */
  function LeadingPairs(c: string): Result<Bgr, ColorError>
  {
    PairsToBgr(Slice(c, 0, 2), Slice(c, 2, 4), Slice(c, 4, 6))
  }

  /** The colour parse of the map module's three drawing functions. */
  function ParseMapColor(color: string): Result<ColorValue, ColorError>
  {
    if |color| > 0 && color[0] == '#' then
      match LeadingPairs(LStripHash(color))
      case Ok(bgr) => Ok(Parsed(bgr))
      case Err(e) => Err(e)
    else Ok(AsGiven(color))
  }

  /** The colour parse of the image-processing modules: `color[1:3]`,
      `color[3:5]`, `color[5:7]`, whatever the first character is. */
  function ParseFixedColor(color: string): Result<Bgr, ColorError>
  {
    PairsToBgr(Slice(color, 1, 3), Slice(color, 3, 5), Slice(color, 5, 7))
  }

  /** Hex digits at positions `o` to `o + 5` of `c`. */
  predicate HexAt(c: string, o: nat)
  {
    o + 6 <= |c| && forall i :: o <= i < o + 6 ==> IsHexDigit(c[i])
  }

  /** The byte written at positions `k` and `k + 1`. */
  function Pair(c: string, k: nat): (v: int)
    requires k + 1 < |c| && IsHexDigit(c[k]) && IsHexDigit(c[k + 1])
    ensures 0 <= v <= 255
  {
    16 * HexValue(c[k]) + HexValue(c[k + 1])
  }

  /** The colour "#RRGGBB"-style digits at `o` stand for, as blue, green, red. */
  function BgrAt(c: string, o: nat): Bgr
    requires HexAt(c, o)
  {
    Bgr(Pair(c, o + 4), Pair(c, o + 2), Pair(c, o))
  }

  lemma SliceWithin(s: string, i: nat, j: nat)
    requires i <= j <= |s|
    ensures Slice(s, i, j) == s[i..j]
  {
  }

  lemma PairParsed(c: string, k: nat)
    requires k + 1 < |c| && IsHexDigit(c[k]) && IsHexDigit(c[k + 1])
    ensures ParsePair(c[k..k + 2]) == Some(Pair(c, k))
  {
    var t := c[k..k + 2];
    assert t[0] == c[k] && t[1] == c[k + 1];
    ParsePairDigits(t);
  }

  /** Six hex digits at offset `o` are read as three bytes. */
  lemma PairsAt(c: string, o: nat)
    requires HexAt(c, o)
    ensures PairsToBgr(Slice(c, o, o + 2), Slice(c, o + 2, o + 4), Slice(c, o + 4, o + 6)) == Ok(BgrAt(c, o))
  {
    SliceWithin(c, o, o + 2);
    SliceWithin(c, o + 2, o + 4);
    SliceWithin(c, o + 4, o + 6);
    assert IsHexDigit(c[o]) && IsHexDigit(c[o + 1]) && IsHexDigit(c[o + 2]);
    assert IsHexDigit(c[o + 3]) && IsHexDigit(c[o + 4]) && IsHexDigit(c[o + 5]);
    PairParsed(c, o);
    PairParsed(c, o + 2);
    PairParsed(c, o + 4);
  }

  lemma {:induction false} LStripHashes(s: string, n: nat)
    requires n < |s| && s[n] != '#' && forall i :: 0 <= i < n ==> s[i] == '#'
    ensures LStripHash(s) == s[n..]
    decreases n
  {
    if n > 0 {
      assert s[1..][n - 1..] == s[n..];
      LStripHashes(s[1..], n - 1);
    }
  }

  /** A colour of `n >= 1` hashes and six hex digits (anything after them is
      ignored) is read by the map module as those three bytes, in blue,
      green, red order. */
  lemma MapColorReadsBytes(color: string, n: nat)
    requires 1 <= n && HexAt(color, n) && forall i :: 0 <= i < n ==> color[i] == '#'
    ensures ParseMapColor(color) == Ok(Parsed(BgrAt(color, n)))
  {
    assert IsHexDigit(color[n]);
    LStripHashes(color, n);
    DigitsAfterHashes(color, n);
    MapColorFromStripped(color, n);
  }

  lemma DigitsAfterHashes(color: string, n: nat)
    requires HexAt(color, n)
    ensures HexAt(color[n..], 0) && LeadingPairs(color[n..]) == Ok(BgrAt(color, n))
  {
    var c := color[n..];
    forall i | 0 <= i < 6 ensures IsHexDigit(c[i]) {
      assert c[i] == color[n + i];
    }
    PairsAt(c, 0);
    assert c[0] == color[n] && c[1] == color[n + 1] && c[2] == color[n + 2];
    assert c[3] == color[n + 3] && c[4] == color[n + 4] && c[5] == color[n + 5];
  }

  lemma MapColorFromStripped(color: string, n: nat)
    requires 1 <= n <= |color| && color[0] == '#' && LStripHash(color) == color[n..]
    requires LeadingPairs(color[n..]).Ok?
    ensures ParseMapColor(color) == Ok(Parsed(LeadingPairs(color[n..]).value))
  {
  }

  /** The fixed-position parse reads the digits after the first character,
      whatever that character is. */
  lemma FixedColorReadsBytes(color: string)
    requires HexAt(color, 1)
    ensures ParseFixedColor(color) == Ok(BgrAt(color, 1))
  {
    PairsAt(color, 1);
  }

  /** On every well-formed "#RRGGBB" the two parses agree. */
  lemma ColorParsesAgree(color: string)
    requires |color| > 0 && color[0] == '#' && HexAt(color, 1)
    ensures ParseMapColor(color) == Ok(Parsed(ParseFixedColor(color).value))
  {
    MapColorReadsBytes(color, 1);
    FixedColorReadsBytes(color);
  }

  /** Where the two parses part: a short form such as "#F00" fails in
      both, since their third slice is empty ... */
  lemma ShortColorFails(color: string)
    requires 1 <= |color| <= 5 && color[0] == '#'
    ensures ParseMapColor(color).Err? && ParseFixedColor(color).Err?
  {
    var c := LStripHash(color);
    assert Slice(c, 4, 6) == "";
    assert Slice(color, 5, 7) == "";
  }

  /** ... while a doubled hash is accepted by the map module and refused
      by the fixed-position parse, whose first slice is then "#" and a digit. */
  lemma DoubledHashDiffers(color: string)
    requires |color| >= 2 && color[0] == '#' && color[1] == '#' && HexAt(color, 2)
    ensures ParseMapColor(color) == Ok(Parsed(BgrAt(color, 2)))
    ensures ParseFixedColor(color).Err?
  {
    MapColorReadsBytes(color, 2);
    SliceWithin(color, 1, 3);
    HashPairRefused(Slice(color, 1, 3));
  }

  /** A two-character slice starting with "#" is not a hex number. */
  lemma HashPairRefused(t: string)
    requires |t| == 2 && t[0] == '#'
    ensures ParsePair(t).None?
  {
    if IsSpace(t[1]) {
      assert t[..1] == "#";
      assert Strip(t[..1]) == "#";
      assert Strip(t) == "#";
    } else {
      assert Strip(t) == t;
    }
  }

  // ------------------------------------------------------------- rectangles

  /** The map module's border: `int(w * ratio)` in from each side. */
  function MapBorderRect(w: nat, h: nat, ratio: real): (rect: (int, int, int, int))
    ensures rect.2 == w - rect.0 && rect.3 == h - rect.1
  {
    var bx := Trunc(w as real * ratio);
    var dy := Trunc(h as real * ratio);
    var bw := w - 2 * bx;
    var bh := h - 2 * dy;
    (bx, dy, bx + bw, dy + bh)
  }

  /** The image-processing border: corners at `int(w * r)` and `int(w * (1 - r))`. */
  function InsetRect(w: nat, h: nat, ratio: real): (int, int, int, int)
  {
    (Trunc(w as real * ratio), Trunc(h as real * ratio),
     Trunc(w as real * (1.0 - ratio)), Trunc(h as real * (1.0 - ratio)))
  }

  /** Along one side of length `w`: the inset is at most half the side, and
      the far corner of the image-processing border is not before the near one. */
  lemma AxisInside(w: nat, ratio: real)
    requires 0.0 <= ratio <= 0.5
    ensures var x1 := Trunc(w as real * ratio);
      0 <= x1 && 2 * x1 <= w && x1 <= Trunc(w as real * (1.0 - ratio)) <= w
  {
    var a := w as real * ratio;
    MulNonNegative(w as real, 0.5 - ratio);
    assert w as real * 0.5 - a == w as real * (0.5 - ratio);
    var x1 := Trunc(a);
    assert x1 as real <= a;
    assert (2 * x1) as real <= w as real;
    var b := w as real * (1.0 - ratio);
    assert b == w as real - a;
    assert a <= b <= w as real;
  }

  /** For a ratio up to one half both borders lie inside the picture, left
      of right and above bottom. */
  lemma BorderRectsInside(w: nat, h: nat, ratio: real)
    requires 0.0 <= ratio <= 0.5
    ensures var rect := MapBorderRect(w, h, ratio);
      0 <= rect.0 <= rect.2 <= w && 0 <= rect.1 <= rect.3 <= h
    ensures var rect := InsetRect(w, h, ratio);
      0 <= rect.0 <= rect.2 <= w && 0 <= rect.1 <= rect.3 <= h
  {
    AxisInside(w, ratio);
    AxisInside(h, ratio);
  }

  /** The two rectangles share the top-left corner; the far corner agrees
      when `w * ratio` is whole and is one pixel nearer otherwise. */
  lemma InsetVersusMap(w: nat, h: nat, ratio: real)
    requires 0.0 <= ratio <= 1.0
    ensures InsetRect(w, h, ratio).0 == MapBorderRect(w, h, ratio).0
    ensures var x1 := MapBorderRect(w, h, ratio).0;
      InsetRect(w, h, ratio).2 == if x1 as real == w as real * ratio then w - x1 else w - x1 - 1
  {
    var a := w as real * ratio;
    assert w as real * (1.0 - ratio) == w as real - a;
    assert w as real * (1.0 - ratio) >= 0.0;
    TruncComplement(w, a);
  }

  /** `int(w - a) == w - int(a)` when `a` is whole, one less otherwise. */
  lemma TruncComplement(w: int, a: real)
    requires 0.0 <= a <= w as real
    ensures Trunc(w as real - a) == if Trunc(a) as real == a then w - Trunc(a) else w - Trunc(a) - 1
  {
    var x1 := Trunc(a);
    if x1 as real != a {
      assert x1 as real < a < x1 as real + 1.0;
      assert (w - x1 - 1) as real < w as real - a < (w - x1) as real;
    }
  }

  // --------------------------------------------------------------- drawing

  /** The channel order of the array a shape is drawn on: the map module
      converts the picture to BGR and back, the image-processing modules
      draw on the RGB array of the picture and convert nothing. */
  datatype Canvas = BgrCanvas | RgbCanvas

  /** A colour as it shows in the returned picture: red, green, blue. */
  datatype Rgb = Rgb(r: int, g: int, b: int)

  /** The colour a tuple handed to OpenCV shows once the picture is back in
      RGB: on a BGR canvas its first value is the blue channel, on an RGB
      canvas the red one. */
  function ShownColor(c: Bgr, canvas: Canvas): Rgb
  {
    match canvas
    case BgrCanvas => Rgb(c.r, c.g, c.b)
    case RgbCanvas => Rgb(c.b, c.g, c.r)
  }

  /** The colour "#RRGGBB"-style digits at `o` name. */
  function RgbAt(c: string, o: nat): Rgb
    requires HexAt(c, o)
  {
    Rgb(Pair(c, o), Pair(c, o + 2), Pair(c, o + 4))
  }

  /** What a drawing call leaves on a copy of the picture. */
  datatype Drawing =
    | Unchanged(image: Picture)
    | Rectangle(source: Picture, rect: (int, int, int, int), color: ColorValue, width: int, canvas: Canvas)
    | Polyline(source: Picture, points: seq<(int, int)>, closed: bool, color: ColorValue, width: int)
    | Highlight(source: Picture, points: seq<(int, int)>, color: ColorValue, alpha: real)

  /** `draw_property_border` of the map module. */
  function DrawMapBorder(image: Picture, color: string, width: int, ratio: real, w: nat, h: nat): Result<Drawing, ColorError>
  {
    match ParseMapColor(color)
    case Ok(c) => Ok(Rectangle(image, MapBorderRect(w, h, ratio), c, width, BgrCanvas))
    case Err(e) => Err(e)
  }

  /** `apply_manual_border`: the image itself for fewer than two points,
      else a polyline, closed only when asked and with at least three points. */
  function ManualBorder(image: Picture, points: seq<(int, int)>, color: string, width: int, closed: bool): (r: Result<Drawing, ColorError>)
    ensures |points| < 2 ==> r == Ok(Unchanged(image))
    ensures |points| >= 2 && r.Ok? ==> r.value.Polyline? && r.value.points == points
                                       && (r.value.closed <==> closed && |points| >= 3)
    ensures |points| >= 2 ==> (r.Err? <==> ParseMapColor(color).Err?)
  {
    if |points| < 2 then Ok(Unchanged(image))
    else match ParseMapColor(color)
      case Ok(c) => Ok(Polyline(image, points, closed && |points| >= 3, c, width))
      case Err(e) => Err(e)
  }

  /** `highlight_property_area`: the image itself for fewer than three
      points, else a filled and outlined area. */
  function HighlightArea(image: Picture, points: seq<(int, int)>, color: string, alpha: real): (r: Result<Drawing, ColorError>)
    ensures |points| < 3 ==> r == Ok(Unchanged(image))
    ensures |points| >= 3 ==> (r.Ok? <==> ParseMapColor(color).Ok?)
    ensures |points| >= 3 && r.Ok? ==> r.value == Highlight(image, points, ParseMapColor(color).value, alpha)
  {
    if |points| < 3 then Ok(Unchanged(image))
    else match ParseMapColor(color)
      case Ok(c) => Ok(Highlight(image, points, c, alpha))
      case Err(e) => Err(e)
  }

  /** `draw_property_border` of the current image-processing module, as
      written: the blue, green, red tuple is drawn on the RGB array. */
  function DrawInsetBorder(image: Picture, color: string, width: int, ratio: real, w: nat, h: nat): Result<Drawing, ColorError>
  {
    match ParseFixedColor(color)
    case Ok(c) => Ok(Rectangle(image, InsetRect(w, h, ratio), Parsed(c), width, RgbCanvas))
    case Err(e) => Err(e)
  }

  /** The image-processing border as intended: the same parse and corners,
      with the tuple handed over in the canvas's own order (red, green, blue). */
  function DrawInsetBorderIntended(image: Picture, color: string, width: int, ratio: real, w: nat, h: nat): Result<Drawing, ColorError>
  {
    match ParseFixedColor(color)
    case Ok(c) => Ok(Rectangle(image, InsetRect(w, h, ratio), Parsed(Bgr(c.r, c.g, c.b)), width, RgbCanvas))
    case Err(e) => Err(e)
  }

  /** The older `draw_property_border`: the colour library's verdict
      (`accepted`) comes first and its ValueError is raised again; an
      accepted colour is then read at the fixed positions, which can still
      fail (for a colour name, say). */
  function DrawCheckedBorder(image: Picture, color: string, accepted: bool, width: int, ratio: real, w: nat, h: nat): (r: Result<Drawing, ColorError>)
    ensures !accepted ==> r.Err?
    ensures accepted ==> r == DrawInsetBorder(image, color, width, ratio, w, h)
  {
    if !accepted then Err(ValueError) else DrawInsetBorder(image, color, width, ratio, w, h)
  }

  /** Every guarded drawing leaves the input picture as the source of the
      copy it draws on, with the border inside the picture for ratios up
      to one half. Both hand OpenCV the same blue, green, red tuple; the
      map module's border shows the colour the text names, the
      image-processing border shows it with red and blue exchanged. */
  lemma BorderInside(image: Picture, color: string, width: int, ratio: real, w: nat, h: nat)
    requires |color| > 0 && color[0] == '#' && HexAt(color, 1) && 0.0 <= ratio <= 0.5
    ensures var d := DrawInsetBorder(image, color, width, ratio, w, h);
      d.Ok? && d.value.Rectangle? && d.value.source == image
      && 0 <= d.value.rect.0 <= d.value.rect.2 <= w && 0 <= d.value.rect.1 <= d.value.rect.3 <= h
      && d.value.color == Parsed(BgrAt(color, 1)) && d.value.canvas == RgbCanvas
      && ShownColor(d.value.color.bgr, d.value.canvas) == Rgb(Pair(color, 5), Pair(color, 3), Pair(color, 1))
    ensures var d := DrawMapBorder(image, color, width, ratio, w, h);
      d.Ok? && d.value.Rectangle? && d.value.source == image
      && d.value.rect.2 - d.value.rect.0 == w - 2 * d.value.rect.0
      && d.value.color == Parsed(BgrAt(color, 1)) && d.value.canvas == BgrCanvas
      && ShownColor(d.value.color.bgr, d.value.canvas) == RgbAt(color, 1)
  {
    FixedColorReadsBytes(color);
    MapColorReadsBytes(color, 1);
    BorderRectsInside(w, h, ratio);
  }

  /** As written, the red the application offers ("#FF0000") is drawn blue
      by the image-processing border, and red by the map module's. */
  lemma InsetBorderRedShowsBlue(image: Picture, width: int, ratio: real, w: nat, h: nat)
    ensures var d := DrawInsetBorder(image, "#FF0000", width, ratio, w, h);
      d.Ok? && d.value.Rectangle? && ShownColor(d.value.color.bgr, d.value.canvas) == Rgb(0, 0, 255)
    ensures var d := DrawMapBorder(image, "#FF0000", width, ratio, w, h);
      d.Ok? && d.value.Rectangle? && ShownColor(d.value.color.bgr, d.value.canvas) == Rgb(255, 0, 0)
  {
    var red := "#FF0000";
    assert HexAt(red, 1);
    FixedColorReadsBytes(red);
    MapColorReadsBytes(red, 1);
    assert Pair(red, 1) == 255 && Pair(red, 3) == 0 && Pair(red, 5) == 0;
  }

  /** The intended image-processing border shows the colour the text names,
      the same colour as the map module's border, for every well-formed
      "#RRGGBB", at the same fixed-position corners. */
  lemma IntendedInsetBorderColor(image: Picture, color: string, width: int, ratio: real, w: nat, h: nat)
    requires |color| > 0 && color[0] == '#' && HexAt(color, 1)
    ensures var d := DrawInsetBorderIntended(image, color, width, ratio, w, h);
      d.Ok? && d.value.Rectangle? && d.value.source == image && d.value.rect == InsetRect(w, h, ratio)
      && ShownColor(d.value.color.bgr, d.value.canvas) == RgbAt(color, 1)
    ensures var d := DrawInsetBorderIntended(image, color, width, ratio, w, h);
      var m := DrawMapBorder(image, color, width, ratio, w, h);
      m.Ok? && ShownColor(d.value.color.bgr, d.value.canvas) == ShownColor(m.value.color.bgr, m.value.canvas)
  {
    FixedColorReadsBytes(color);
    MapColorReadsBytes(color, 1);
  }

  // ----------------------------------------------------------------- saving

  /** `_save_image_to_file`: a palette picture is converted to RGB first;
      true when the write succeeds, false (and nothing written) on any error. */
  function SaveImageToFile(files: map<string, Picture>, image: Picture, path: string, writeFails: bool): (r: (bool, map<string, Picture>))
    ensures r.0 <==> !writeFails
    ensures r.0 ==> path in r.1 && r.1 == files[path := r.1[path]] && r.1[path].id == image.id
                    && r.1[path].mode == (if image.mode == "P" then "RGB" else image.mode)
    ensures !r.0 ==> r.1 == files
  {
    if writeFails then (false, files)
    else
      var saved := if image.mode == "P" then image.(mode := "RGB") else image;
      (true, files[path := saved])
  }
}
