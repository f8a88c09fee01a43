/**
 * The drawing canvas (src/components/DrawingCanvas.tsx): the hex colour
 * parser, the brush rules, and the buffer that collects one stroke's points
 * between mouse-down and mouse-up and then publishes the stroke.
 *
 * The parser accepts only the six-digit form of the hexadecimal colour
 * notation of section 5.2 of CSS Color Module Level 4 (an optional `#`, then
 * two hexadecimal digits per channel, either case); every other string,
 * including the three-, four- and eight-digit forms, gives black.
 */
module DrawingCanvas {
  import opened Wrappers

  // ---------------------------------------------------------------------------
  // hexToRgb
  // ---------------------------------------------------------------------------

  /** `[a-f\d]` under the case-insensitive flag: ASCII digits and a-f in either case. */
  predicate IsHexDigit(c: char) {
    ('0' <= c <= '9') || ('a' <= c <= 'f') || ('A' <= c <= 'F')
  }

  predicate AllHex(s: string) {
    forall i :: 0 <= i < |s| ==> IsHexDigit(s[i])
  }

  function HexValue(c: char): (v: nat)
    requires IsHexDigit(c)
    ensures v < 16
  {
    if '0' <= c <= '9' then (c - '0') as nat
    else if 'a' <= c <= 'f' then (c - 'a') as nat + 10
    else (c - 'A') as nat + 10
  }

  /** `/^#?([a-f\d]{2})([a-f\d]{2})([a-f\d]{2})$/i` matches. */
  predicate Matches(s: string) {
    (|s| == 6 && AllHex(s)) || (|s| == 7 && s[0] == '#' && AllHex(s[1..]))
  }

  /** The six captured digits of a matching string. */
  function DigitsOf(s: string): (d: string)
    requires Matches(s)
    ensures |d| == 6 && AllHex(d)
  {
    if |s| == 7 then s[1..] else s
  }

  /** `parseInt(pair, 16)`. */
  function PairValue(d: string, i: nat): (v: nat)
    requires i + 1 < |d| && IsHexDigit(d[i]) && IsHexDigit(d[i + 1])
    ensures v < 256
  {
    16 * HexValue(d[i]) + HexValue(d[i + 1])
  }

  datatype Rgb = Rgb(r: int, g: int, b: int)

  predicate InRange(c: Rgb) {
    0 <= c.r < 256 && 0 <= c.g < 256 && 0 <= c.b < 256
  }

  function HexToRgb(hex: string): (c: Rgb)
    ensures InRange(c)
    ensures !Matches(hex) ==> c == Rgb(0, 0, 0)
  {
    if Matches(hex) then
      var d := DigitsOf(hex);
      Rgb(PairValue(d, 0), PairValue(d, 2), PairValue(d, 4))
    else Rgb(0, 0, 0)
  }

  /** A value below 16 as one lower-case hexadecimal digit. */
  function HexChar(v: nat): (c: char)
    requires v < 16
    ensures IsHexDigit(c) && HexValue(c) == v
  {
    if v < 10 then ('0' as int + v) as char else ('a' as int + v - 10) as char
  }

  function HexPair(v: nat): (s: string)
    requires v < 256
    ensures |s| == 2 && AllHex(s) && PairValue(s, 0) == v
  {
    [HexChar(v / 16), HexChar(v % 16)]
  }

  /** `#rrggbb` in lower case. */
  function FormatHex(c: Rgb): (s: string)
    requires InRange(c)
    ensures |s| == 7 && s[0] == '#' && AllHex(s[1..])
  {
    "#" + HexPair(c.r) + HexPair(c.g) + HexPair(c.b)
  }

  /** Formatting a colour and parsing it back gives the same channels. */
  lemma FormatThenParse(c: Rgb)
    requires InRange(c)
    ensures HexToRgb(FormatHex(c)) == c
  {
    var s := FormatHex(c);
    var d := DigitsOf(s);
    assert d == HexPair(c.r) + HexPair(c.g) + HexPair(c.b);
    assert d[0..2] == HexPair(c.r) && d[2..4] == HexPair(c.g) && d[4..6] == HexPair(c.b);
    assert PairValue(d, 0) == PairValue(HexPair(c.r), 0);
    assert PairValue(d, 2) == PairValue(HexPair(c.g), 0);
    assert PairValue(d, 4) == PairValue(HexPair(c.b), 0);
  }

  function LowerHex(c: char): (l: char)
    requires IsHexDigit(c)
    ensures IsHexDigit(l) && HexValue(l) == HexValue(c) && !('A' <= l <= 'F')
  {
    if 'A' <= c <= 'F' then (c as int - 'A' as int + 'a' as int) as char else c
  }

  lemma PairRoundTrip(d: string, i: nat)
    requires i + 1 < |d| && IsHexDigit(d[i]) && IsHexDigit(d[i + 1])
    ensures HexPair(PairValue(d, i)) == [LowerHex(d[i]), LowerHex(d[i + 1])]
  {
    var hi, lo := HexValue(d[i]), HexValue(d[i + 1]);
    assert PairValue(d, i) / 16 == hi && PairValue(d, i) % 16 == lo;
  }

  /**
   * Parsing an accepted string and formatting the result gives `#` and the
   * same six digits in lower case: the parser loses only the case and the
   * optional `#`.
   */
  lemma ParseThenFormat(s: string)
    requires Matches(s)
    ensures var d := DigitsOf(s);
      FormatHex(HexToRgb(s)) == "#" + [LowerHex(d[0]), LowerHex(d[1]), LowerHex(d[2]), LowerHex(d[3]), LowerHex(d[4]), LowerHex(d[5])]
  {
    var d := DigitsOf(s);
    PairRoundTrip(d, 0);
    PairRoundTrip(d, 2);
    PairRoundTrip(d, 4);
  }

  /** The short and alpha forms of the notation are not understood: they give black. */
  lemma OtherHexFormsAreBlack()
    ensures HexToRgb("#fff") == Rgb(0, 0, 0)
    ensures HexToRgb("#ffff") == Rgb(0, 0, 0)
    ensures HexToRgb("#ff8800cc") == Rgb(0, 0, 0)
    ensures HexToRgb("ff8800") == Rgb(255, 136, 0)
    ensures HexToRgb("#FF8800") == Rgb(255, 136, 0)
  {
    assert !Matches("#ff8800cc");
    assert "ff8800"[0..6] == "ff8800";
    assert "#FF8800"[1..] == "FF8800";
  }

  // ---------------------------------------------------------------------------
  // getBrushSettings
  // ---------------------------------------------------------------------------

  datatype Tool = Draw | Erase
  datatype BrushType = Pen | Marker | Highlighter | Pencil
  datatype LineCap = Round | Square

  datatype BrushSettings = BrushSettings(size: real, opacity: real, lineCap: LineCap)

  function GetBrushSettings(tool: Tool, brush: BrushType, brushSize: real): (b: BrushSettings)
    ensures 0.0 < b.opacity <= 1.0
    ensures b.lineCap == Square <==> brush == Highlighter
  {
    var size := if tool == Erase then brushSize * 3.0 else brushSize;
    match brush
    case Marker => BrushSettings(size * 2.0, 0.9, Round)
    case Highlighter => BrushSettings(size * 3.0, 0.3, Square)
    case Pencil => BrushSettings(size * 0.7, 0.7, Round)
    case Pen => BrushSettings(size, 1.0, Round)
  }

  /** Erasing triples the width of every brush and changes nothing else. */
  lemma EraseTriplesWidth(brush: BrushType, brushSize: real)
    ensures var d := GetBrushSettings(Draw, brush, brushSize);
      var e := GetBrushSettings(Erase, brush, brushSize);
      e.size == 3.0 * d.size && e.opacity == d.opacity && e.lineCap == d.lineCap
  {
  }

  /**
   * The width is the brush size times a factor fixed by the brush (0.7 pencil,
   * 1 pen, 2 marker, 3 highlighter), so for a positive size the brushes are
   * ordered pencil < pen < marker < highlighter.
   */
  lemma WidthScalesWithSize(tool: Tool, brush: BrushType, brushSize: real)
    ensures GetBrushSettings(tool, brush, brushSize).size == brushSize * GetBrushSettings(tool, brush, 1.0).size
    ensures brushSize > 0.0 ==>
      GetBrushSettings(tool, Pencil, brushSize).size < GetBrushSettings(tool, Pen, brushSize).size
      < GetBrushSettings(tool, Marker, brushSize).size < GetBrushSettings(tool, Highlighter, brushSize).size
  {
  }

  // ---------------------------------------------------------------------------
  // The stroke buffer
  // ---------------------------------------------------------------------------

  datatype Point = Point(x: real, y: real)

  /** The colour sent with a stroke: a literal, or `rgba(r, g, b, opacity)`. */
  datatype StrokeColor = Literal(text: string) | Rgba(r: int, g: int, b: int, alpha: real)

  datatype Stroke = Stroke(points: seq<Point>, color: StrokeColor, thickness: real, brush: BrushType)

  /** A stroke handed to the shared service's `send`. */
  datatype StrokeSend = StrokeSend(destination: string, stroke: Stroke)

  function StrokeDestination(gameCode: string): string {
    "/app/stroke/" + gameCode
  }

  /** The stroke published for the buffered points under the current tool, brush and colour. */
  function StrokeFor(points: seq<Point>, tool: Tool, brush: BrushType, brushSize: real, color: string): (s: Stroke)
    ensures s.points == points && s.brush == brush
    ensures s.thickness == GetBrushSettings(tool, brush, brushSize).size
    ensures tool == Erase ==> s.color == Literal("#ffffff")
    ensures tool == Draw ==>
              && s.color.Rgba? && InRange(Rgb(s.color.r, s.color.g, s.color.b))
              && s.color.alpha == GetBrushSettings(tool, brush, brushSize).opacity
    ensures tool == Draw ==>
              s.color == Rgba(HexToRgb(color).r, HexToRgb(color).g, HexToRgb(color).b, GetBrushSettings(tool, brush, brushSize).opacity)
  {
    var settings := GetBrushSettings(tool, brush, brushSize);
    var rgb := HexToRgb(color);
    var strokeColor := if tool == Erase then Literal("#ffffff") else Rgba(rgb.r, rgb.g, rgb.b, settings.opacity);
    Stroke(points, strokeColor, settings.size, brush)
  }

  /** A colour chosen in the picker, which writes it as `#rrggbb`, is the colour a drawn stroke carries. */
  lemma StrokeCarriesPickedColour(points: seq<Point>, brush: BrushType, brushSize: real, c: Rgb)
    requires InRange(c)
    ensures StrokeFor(points, Draw, brush, brushSize, FormatHex(c)).color
              == Rgba(c.r, c.g, c.b, GetBrushSettings(Draw, brush, brushSize).opacity)
  {
    FormatThenParse(c);
  }

  /**
   * The canvas's drawing state. `hasContext` says whether the 2D context was
   * obtained; a pointer position is `None` when the canvas has no bounding
   * rectangle.
   */
  datatype CaptureState = CaptureState(isDrawing: bool, currentStroke: seq<Point>, sent: seq<StrokeSend>)

  /** `startDrawing`: drawing starts, and the buffer restarts at the press point when there is one. */
  function Press(s: CaptureState, hasContext: bool, p: Option<Point>): (r: CaptureState)
    ensures !hasContext ==> r == s
    ensures hasContext ==> r.isDrawing && r.sent == s.sent
    ensures hasContext ==> r.currentStroke == if p.Some? then [p.value] else s.currentStroke
  {
    if !hasContext then s
    else if p.None? then s.(isDrawing := true)
    else s.(isDrawing := true, currentStroke := [p.value])
  }

  /** `draw`: one point more at the end, only while drawing. */
  function Move(s: CaptureState, hasContext: bool, p: Option<Point>): (r: CaptureState)
    ensures r.isDrawing == s.isDrawing && r.sent == s.sent
    ensures r.currentStroke == if s.isDrawing && hasContext && p.Some? then s.currentStroke + [p.value] else s.currentStroke
  {
    if !s.isDrawing || !hasContext || p.None? then s
    else s.(currentStroke := s.currentStroke + [p.value])
  }

  /** `stopDrawing`: at most one stroke published, only for a non-empty buffer, which is then emptied. */
  function Release(s: CaptureState, hasContext: bool, gameCode: string, tool: Tool, brush: BrushType, brushSize: real, color: string): (r: CaptureState)
    ensures !hasContext ==> r == s
    ensures hasContext ==> !r.isDrawing && r.currentStroke == []
    ensures hasContext && s.currentStroke != [] ==>
      r.sent == s.sent + [StrokeSend(StrokeDestination(gameCode), StrokeFor(s.currentStroke, tool, brush, brushSize, color))]
    ensures !(hasContext && s.currentStroke != []) ==> r.sent == s.sent
  {
    if !hasContext then s
    else if s.currentStroke == [] then s.(isDrawing := false)
    else CaptureState(false, [], s.sent + [StrokeSend(StrokeDestination(gameCode), StrokeFor(s.currentStroke, tool, brush, brushSize, color))])
  }

  /** A sequence of pointer moves. */
  function MoveAll(s: CaptureState, hasContext: bool, ps: seq<Point>): CaptureState
    decreases |ps|
  {
    if ps == [] then s else MoveAll(Move(s, hasContext, Some(ps[0])), hasContext, ps[1..])
  }

  /** While drawing, moves append their points in order and publish nothing. */
  lemma {:induction false} MovesAppendInOrder(s: CaptureState, ps: seq<Point>)
    requires s.isDrawing
    ensures MoveAll(s, true, ps) == s.(currentStroke := s.currentStroke + ps)
    decreases |ps|
  {
    if ps != [] {
      MovesAppendInOrder(Move(s, true, Some(ps[0])), ps[1..]);
      assert s.currentStroke + [ps[0]] + ps[1..] == s.currentStroke + ps;
    }
  }

  /** Without a press, moves add nothing. */
  lemma {:induction false} MovesIgnoredWhenNotDrawing(s: CaptureState, hasContext: bool, ps: seq<Point>)
    requires !s.isDrawing
    ensures MoveAll(s, hasContext, ps) == s
    decreases |ps|
  {
    if ps != [] {
      MovesIgnoredWhenNotDrawing(s, hasContext, ps[1..]);
    }
  }

  /** Press, move, release: exactly one stroke is published, carrying the press point and the moves in order. */
  lemma OneStrokePerGesture(s: CaptureState, gameCode: string, p: Point, ps: seq<Point>, tool: Tool, brush: BrushType, brushSize: real, color: string)
    ensures var r := Release(MoveAll(Press(s, true, Some(p)), true, ps), true, gameCode, tool, brush, brushSize, color);
      && r.sent == s.sent + [StrokeSend(StrokeDestination(gameCode), StrokeFor([p] + ps, tool, brush, brushSize, color))]
      && r.sent[|s.sent|].stroke.points == [p] + ps
      && !r.isDrawing && r.currentStroke == []
  {
    MovesAppendInOrder(Press(s, true, Some(p)), ps);
  }

  /** A second release publishes nothing. */
  lemma SecondReleasePublishesNothing(s: CaptureState, hasContext: bool, gameCode: string, tool: Tool, brush: BrushType, brushSize: real, color: string)
    ensures var once := Release(s, hasContext, gameCode, tool, brush, brushSize, color);
      Release(once, hasContext, gameCode, tool, brush, brushSize, color).sent == once.sent
  {
  }

  class StrokeCapture {
    const gameCode: string
    const hasContext: bool
    var isDrawing: bool
    var currentStroke: seq<Point>
    var sent: seq<StrokeSend>

    function State(): CaptureState
      reads this
    {
      CaptureState(isDrawing, currentStroke, sent)
    }

    constructor (gameCode: string, hasContext: bool)
      ensures this.gameCode == gameCode && this.hasContext == hasContext
      ensures State() == CaptureState(false, [], [])
    {
      this.gameCode := gameCode;
      this.hasContext := hasContext;
      isDrawing := false;
      currentStroke := [];
      sent := [];
    }

    /** Mouse-down. */
    method StartDrawing(p: Option<Point>)
      modifies this
      ensures State() == Press(old(State()), hasContext, p)
    {
      if !hasContext {
        return;
      }
      isDrawing := true;
      if p.None? {
        return;
      }
      currentStroke := [p.value];
    }

    /** Mouse-move. */
    method Draw(p: Option<Point>)
      modifies this
      ensures State() == Move(old(State()), hasContext, p)
    {
      if !isDrawing || !hasContext {
        return;
      }
      if p.None? {
        return;
      }
      currentStroke := currentStroke + [p.value];
    }

    /** Mouse-up or leave. */
    method StopDrawing(tool: Tool, brush: BrushType, brushSize: real, color: string)
      modifies this
      ensures State() == Release(old(State()), hasContext, gameCode, tool, brush, brushSize, color)
    {
      if !hasContext {
        return;
      }
      isDrawing := false;
      if |currentStroke| > 0 {
        var stroke := StrokeFor(currentStroke, tool, brush, brushSize, color);
        sent := sent + [StrokeSend(StrokeDestination(gameCode), stroke)];
        currentStroke := [];
      }
    }
  }
}
