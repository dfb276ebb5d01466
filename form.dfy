/**
 * The drawing side of `Form1` (namespace GraphicalCommandInterpreter): the pen state it keeps
 * in the fields `penX`, `penY`, `penColor` and `fillEnabled`, the marker size, and the
 * drawing calls its methods make on the picture box, recorded as requests in the order they
 * are made. The window itself is not modelled.
 */
module GraphicalForm {
  import opened Int32
  import opened Drawing


  datatype PenState = PenState(x: int32, y: int32, color: Color, fill: bool)

  /** The field initialisers of `Form1` and what `Reset` restores. */
  const InitialPen := PenState(0, 0, Black, false)

  const MarkerBox: int32 := 10

  datatype Point = Point(x: int32, y: int32)

  /** A call on the picture box or on its `Graphics`. */
  datatype Request =
    | Refresh
    | Invalidate
    | FillEllipse(color: Color, left: int32, top: int32, width: int32, height: int32)
    | DrawEllipse(color: Color, left: int32, top: int32, width: int32, height: int32)
    | FillRectangle(color: Color, left: int32, top: int32, width: int32, height: int32)
    | DrawRectangle(color: Color, left: int32, top: int32, width: int32, height: int32)
    | FillPolygon(color: Color, points: seq<Point>)
    | DrawLine(color: Color, from: Point, to: Point)

  /** Everything of `Form1` that the command parser can change or observe. */
  datatype FormState = FormState(pen: PenState, markerSize: int32, drawn: seq<Request>)

  // ---------------------------------------------------------------------------------------
  // Geometry (unchecked C# arithmetic)
  // ---------------------------------------------------------------------------------------

  datatype Box = Box(left: int32, top: int32, width: int32, height: int32)

  /** The bounding box `DrawCircle` uses: origin pen minus radius, side twice the radius. */
  function CircleBox(x: int32, y: int32, radius: int32): Box {
    var diameter := Wrap(radius * 2);
    Box(Wrap(x - radius), Wrap(y - radius), diameter, diameter)
  }

  /** The rectangle `DrawRectangle` uses: origin pen minus half the size (truncated). */
  function RectangleBox(x: int32, y: int32, width: int32, height: int32): Box {
    Box(Wrap(x - Half(width)), Wrap(y - Half(height)), width, height)
  }

  /** `hyp * hyp - (base / 2) * (base / 2)` in unchecked `int` arithmetic. */
  function HeightSquare(base: int32, hyp: int32): int32 {
    Wrap(Wrap(hyp * hyp) - Wrap(Half(base) * Half(base)))
  }

  /**
   * `(int)Math.Sqrt(d)`: for a non-negative `int` the double square root is close enough to
   * the exact one that truncating it gives the integer square root. For a negative `d` the
   * root is NaN and the cast gives a platform-dependent value, `nanToInt`.
   */
  function TriangleHeight(d: int32, nanToInt: int32): int32 {
    if d >= 0 then
      assert ISqrt(d) * ISqrt(d) <= d;
      ISqrt(d)
    else nanToInt
  }

  /** The three corners `DrawTriangle` joins. */
  function TriangleCorners(x: int32, y: int32, adj: int32, base: int32, hyp: int32, nanToInt: int32): seq<Point> {
    var height := TriangleHeight(HeightSquare(base, hyp), nanToInt);
    [Point(x, y), Point(Wrap(x + adj), y), Point(Wrap(x + base), Wrap(y - height))]
  }

  /** When nothing wraps, the circle's box is centred on the pen and has side `2 * radius`. */
  lemma CircleCentred(x: int32, y: int32, radius: int32)
    requires InRange(2 * radius) && InRange(x - radius) && InRange(y - radius)
    ensures var b := CircleBox(x, y, radius);
      && b.width == b.height == 2 * radius
      && 2 * b.left + b.width == 2 * x && 2 * b.top + b.height == 2 * y
  {
  }

  /**
   * When nothing wraps, the rectangle has the requested size and its centre lies within
   * half a unit of the pen (C#'s division truncates odd sizes).
   */
  lemma RectangleCentred(x: int32, y: int32, width: int32, height: int32)
    requires InRange(x - Half(width)) && InRange(y - Half(height))
    ensures var b := RectangleBox(x, y, width, height);
      && b.width == width && b.height == height
      && -1 <= 2 * b.left + b.width - 2 * x <= 1
      && -1 <= 2 * b.top + b.height - 2 * y <= 1
      && (width % 2 == 0 ==> 2 * b.left + b.width == 2 * x)
  {
  }

  /**
   * The triangle starts at the pen, its second corner is `adj` to the right on the same row,
   * and, when nothing wraps, its apex is `base` to the right and as high as the integer
   * square root of `hyp² - (base/2)²`.
   */
  lemma TriangleShape(x: int32, y: int32, adj: int32, base: int32, hyp: int32, nanToInt: int32)
    requires InRange(x + adj) && InRange(x + base)
    requires InRange(hyp * hyp) && InRange(Half(base) * Half(base))
    requires 0 <= hyp * hyp - Half(base) * Half(base)
    ensures var c := TriangleCorners(x, y, adj, base, hyp, nanToInt);
      var h := y - c[2].y;
      var d := hyp * hyp - Half(base) * Half(base);
      && c[0] == Point(x, y) && c[1] == Point(x + adj, y) && c[2].x == x + base
      && (InRange(y - ISqrt(d)) ==> h * h <= d < (h + 1) * (h + 1))
  {
    var d := hyp * hyp - Half(base) * Half(base);
    assert HeightSquare(base, hyp) == d;
  }

  // ---------------------------------------------------------------------------------------
  // The effect of each Form1 method on the state
  // ---------------------------------------------------------------------------------------

  /** The marker `Reset` and `MoveTo` paint at the pen. */
  function Marker(x: int32, y: int32): Request {
    FillEllipse(Blue, x, y, MarkerBox, MarkerBox)
  }

  /** The fill request (when fill is on) followed by the outline request. */
  function Shape(fill: bool, filled: Request, outline: Request): seq<Request> {
    if fill then [filled, outline] else [outline]
  }

  function AfterReset(s: FormState): FormState {
    FormState(InitialPen, s.markerSize, s.drawn + [Refresh, Marker(0, 0)])
  }

  function WithPenColor(s: FormState, c: Color): FormState {
    s.(pen := s.pen.(color := c))
  }

  function WithFill(s: FormState, on: bool): FormState {
    s.(pen := s.pen.(fill := on))
  }

  function AfterMoveTo(s: FormState): FormState {
    s.(drawn := s.drawn + [Refresh, Marker(s.pen.x, s.pen.y)])
  }

  function AfterDrawTo(s: FormState): FormState {
    s.(drawn := s.drawn + [FillEllipse(Transparent, s.pen.x, s.pen.y, s.markerSize, s.markerSize)])
  }

  function AfterClear(s: FormState): FormState {
    s.(markerSize := 0, drawn := s.drawn + [Invalidate])
  }

  function AfterCircle(s: FormState, radius: int32): FormState {
    var b := CircleBox(s.pen.x, s.pen.y, radius);
    var c := s.pen.color;
    s.(drawn := s.drawn + Shape(s.pen.fill, FillEllipse(c, b.left, b.top, b.width, b.height),
                                DrawEllipse(c, b.left, b.top, b.width, b.height)))
  }

  function AfterRectangle(s: FormState, width: int32, height: int32): FormState {
    var b := RectangleBox(s.pen.x, s.pen.y, width, height);
    var c := s.pen.color;
    s.(drawn := s.drawn + Shape(s.pen.fill, FillRectangle(c, b.left, b.top, b.width, b.height),
                                DrawRectangle(c, b.left, b.top, b.width, b.height)))
  }

  function TriangleRequests(c: Color, fill: bool, p: seq<Point>): seq<Request>
    requires |p| == 3
  {
    (if fill then [FillPolygon(c, p)] else [])
      + [DrawLine(c, p[0], p[1]), DrawLine(c, p[1], p[2]), DrawLine(c, p[2], p[0])]
  }

  function AfterTriangle(s: FormState, adj: int32, base: int32, hyp: int32, nanToInt: int32): FormState {
    var p := TriangleCorners(s.pen.x, s.pen.y, adj, base, hyp, nanToInt);
    s.(drawn := s.drawn + TriangleRequests(s.pen.color, s.pen.fill, p))
  }

  // ---------------------------------------------------------------------------------------
  // Properties of the pen state
  // ---------------------------------------------------------------------------------------

  /** `Reset` restores the initial pen, whatever came before, so doing it twice is doing it once. */
  lemma ResetRestoresInitialPen(s: FormState)
    ensures AfterReset(s).pen == InitialPen
    ensures AfterReset(AfterReset(s)).pen == AfterReset(s).pen
    ensures AfterReset(s).markerSize == s.markerSize
  {
  }

  /** Each setter changes its own field of the pen and nothing else. */
  lemma SettersChangeOneField(s: FormState, c: Color, on: bool)
    ensures var t := WithPenColor(s, c);
      t.pen.color == c && t.pen.(color := s.pen.color) == s.pen && t.markerSize == s.markerSize && t.drawn == s.drawn
    ensures var t := WithFill(s, on);
      t.pen.fill == on && t.pen.(fill := s.pen.fill) == s.pen && t.markerSize == s.markerSize && t.drawn == s.drawn
  {
  }

  /**
   * Painting never moves the pen or changes its colour or fill: `MoveTo`, `DrawTo`,
   * `ClearDrawingArea` and the three shapes only add requests (and `ClearDrawingArea`
   * hides the marker).
   */
  lemma DrawingKeepsPen(s: FormState, a: int32, b: int32, h: int32, nanToInt: int32)
    ensures AfterMoveTo(s).pen == s.pen && AfterDrawTo(s).pen == s.pen && AfterClear(s).pen == s.pen
    ensures AfterCircle(s, a).pen == s.pen && AfterRectangle(s, a, b).pen == s.pen
    ensures AfterTriangle(s, a, b, h, nanToInt).pen == s.pen
    ensures AfterClear(s).markerSize == 0
  {
  }

  /** A shape is filled, in the pen's colour, exactly when fill is on; its outline always is drawn. */
  lemma FillOnlyWhenEnabled(s: FormState, radius: int32, width: int32, height: int32)
    ensures var added := AfterCircle(s, radius).drawn[|s.drawn|..];
      |added| == (if s.pen.fill then 2 else 1)
      && (s.pen.fill <==> added[0].FillEllipse?)
      && added[|added| - 1].DrawEllipse? && added[|added| - 1].color == s.pen.color
    ensures var added := AfterRectangle(s, width, height).drawn[|s.drawn|..];
      |added| == (if s.pen.fill then 2 else 1)
      && (s.pen.fill <==> added[0].FillRectangle?)
      && added[|added| - 1].DrawRectangle? && added[|added| - 1].color == s.pen.color
  {
  }

  // ---------------------------------------------------------------------------------------
  // The form object
  // ---------------------------------------------------------------------------------------

  class Form1 {
    var penX: int32
    var penY: int32
    var markerSize: int32
    var penColor: Color
    var fillEnabled: bool
    /** The drawing calls made so far, oldest first. */
    var drawn: seq<Request>
    /** What `(int)double.NaN` gives on the platform the program runs on. */
    const nanToInt: int32

    function State(): FormState
      reads this
    {
      FormState(PenState(penX, penY, penColor, fillEnabled), markerSize, drawn)
    }

    /** The field initialisers, then `Reset()` as the constructor calls it. */
    constructor (nanToInt: int32)
      ensures State() == AfterReset(FormState(InitialPen, MarkerBox, []))
      ensures this.nanToInt == nanToInt
    {
      penX, penY, markerSize := 0, 0, MarkerBox;
      penColor, fillEnabled := Black, false;
      drawn := [];
      this.nanToInt := nanToInt;
      new;
      Reset();
    }

    method SetPenColor(color: Color)
      modifies this
      ensures State() == WithPenColor(old(State()), color)
    {
      penColor := color;
    }

    method SetFillStatus(status: bool)
      modifies this
      ensures State() == WithFill(old(State()), status)
    {
      fillEnabled := status;
    }

    method Reset()
      modifies this
      ensures State() == AfterReset(old(State()))
    {
      penX := 0;
      penY := 0;
      drawn := drawn + [Refresh, Marker(0, 0)];
      fillEnabled := false;
      penColor := Black;
    }

    method MoveTo()
      modifies this
      ensures State() == AfterMoveTo(old(State()))
    {
      drawn := drawn + [Refresh, Marker(penX, penY)];
    }

    method DrawTo()
      modifies this
      ensures State() == AfterDrawTo(old(State()))
    {
      drawn := drawn + [FillEllipse(Transparent, penX, penY, markerSize, markerSize)];
    }

    method ClearDrawingArea()
      modifies this
      ensures State() == AfterClear(old(State()))
    {
      drawn := drawn + [Invalidate];
      markerSize := 0;
    }

    method DrawCircle(radius: int32)
      modifies this
      ensures State() == AfterCircle(old(State()), radius)
    {
      var diameter := Wrap(radius * 2);
      var left, top := Wrap(penX - radius), Wrap(penY - radius);
      if fillEnabled {
        drawn := drawn + [FillEllipse(penColor, left, top, diameter, diameter)];
      }
      drawn := drawn + [DrawEllipse(penColor, left, top, diameter, diameter)];
    }

    method DrawRectangle(width: int32, height: int32)
      modifies this
      ensures State() == AfterRectangle(old(State()), width, height)
    {
      var startX := Wrap(penX - Half(width));
      var startY := Wrap(penY - Half(height));
      if fillEnabled {
        drawn := drawn + [FillRectangle(penColor, startX, startY, width, height)];
      }
      drawn := drawn + [Request.DrawRectangle(penColor, startX, startY, width, height)];
    }

    method DrawTriangle(adj: int32, base: int32, hyp: int32)
      modifies this
      ensures State() == AfterTriangle(old(State()), adj, base, hyp, nanToInt)
    {
      var p1 := Point(penX, penY);
      var p2 := Point(Wrap(penX + adj), penY);
      var height := TriangleHeight(HeightSquare(base, hyp), nanToInt);
      var p3 := Point(Wrap(penX + base), Wrap(penY - height));
      if fillEnabled {
        drawn := drawn + [FillPolygon(penColor, [p1, p2, p3])];
      }
      drawn := drawn + [DrawLine(penColor, p1, p2), DrawLine(penColor, p2, p3), DrawLine(penColor, p3, p1)];
    }
  }
}
