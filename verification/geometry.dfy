/** Pointer coordinates and the shapes built from a start and an end point
    (src/Frame/DrawingPanel.java, `createShape`). */
module Geometry {
  import opened Wrappers
  import Tools

  const MinInt: int := -0x8000_0000
  const MaxInt: int := 0x7fff_ffff

  /** Java's 32-bit `int`. */
  type Int32 = v: int | MinInt <= v <= MaxInt

  /** A `java.awt.Point` as delivered by a mouse event. */
  datatype Point = Point(x: Int32, y: Int32)

  /** Two's-complement wrap-around of an exact integer result, as Java's `int`
      arithmetic performs it. */
  function Wrap(v: int): (r: Int32)
    ensures MinInt <= v <= MaxInt ==> r == v
    ensures (r - v) % 0x1_0000_0000 == 0
  {
    (v - MinInt) % 0x1_0000_0000 + MinInt
  }

  /** `a - b` on Java `int`s. */
  function Diff(a: Int32, b: Int32): (r: Int32)
    ensures MinInt <= a - b <= MaxInt ==> r == a - b
    ensures a - b > MaxInt ==> r == a - b - 0x1_0000_0000
    ensures a - b < MinInt ==> r == a - b + 0x1_0000_0000
  {
    Wrap(a - b)
  }

  /** `Math.abs(int)`: `Math.abs(Integer.MIN_VALUE)` is `Integer.MIN_VALUE` itself. */
  function JavaAbs(a: Int32): (r: Int32)
    ensures a != MinInt ==> r == (if a < 0 then -a else a)
    ensures a == MinInt ==> r == MinInt
  {
    if a < 0 then Wrap(-(a as int)) else a
  }

  /** `Math.min`. */
  function Min(a: int, b: int): (r: int)
    ensures r <= a && r <= b && (r == a || r == b)
  {
    if a <= b then a else b
  }

  function Max(a: int, b: int): (r: int)
    ensures r >= a && r >= b && (r == a || r == b)
  {
    if a <= b then b else a
  }

  /** The three shapes a drag can produce: `Line2D.Float` (the two end points verbatim),
      `Rectangle` and `Ellipse2D.Float` (origin, width and height of the bounding box). */
  datatype Shape =
    | Line(x1: Int32, y1: Int32, x2: Int32, y2: Int32)
    | Rect(x: Int32, y: Int32, w: Int32, h: Int32)
    | Ellipse(x: Int32, y: Int32, w: Int32, h: Int32)

  /** The tools whose drag builds a shape. */
  predicate BuildsShape(t: Tools.Tool)
  {
    t == Tools.Line || t == Tools.Rectangle || t == Tools.Circle
  }

  /** The shape the current tool builds from `start` and `end`; `None` (Java's `null`)
      for the pencil and the eraser, which have their own handling. */
  function CreateShape(tool: Tools.Tool, start: Point, end: Point): (r: Option<Shape>)
    ensures r.Some? <==> BuildsShape(tool)
    ensures tool == Tools.Line ==> r == Some(Line(start.x, start.y, end.x, end.y))
    ensures tool == Tools.Rectangle ==> r.Some? && r.value.Rect?
    ensures tool == Tools.Circle ==> r.Some? && r.value.Ellipse?
    ensures r.Some? && !r.value.Line? ==>
              r.value.x == Min(start.x, end.x) && r.value.y == Min(start.y, end.y)
  {
    var x := Min(start.x, end.x);
    var y := Min(start.y, end.y);
    var width := JavaAbs(Diff(start.x, end.x));
    var height := JavaAbs(Diff(start.y, end.y));
    match tool
    case Pencil => None
    case Clear => None
    case Line => Some(Line(start.x, start.y, end.x, end.y))
    case Rectangle => Some(Rect(x, y, width, height))
    case Circle => Some(Ellipse(x, y, width, height))
  }

  /** The distance between `a` and `b` fits in an `int`. Pointer coordinates are bounded by
      the screen (they may be negative once the pointer leaves the panel during a drag), so in
      practice this always holds. */
  predicate NoOverflow(a: Int32, b: Int32)
  {
    -MaxInt <= a - b <= MaxInt
  }

  /** For a rectangle or an ellipse the origin is the minimum corner and the extent is the
      distance between the two points, so the box reaches the maximum corner and contains
      both points. */
  lemma BoundingBox(tool: Tools.Tool, start: Point, end: Point)
    requires tool == Tools.Rectangle || tool == Tools.Circle
    requires NoOverflow(start.x, end.x) && NoOverflow(start.y, end.y)
    ensures var s := CreateShape(tool, start, end).value;
            && s.w >= 0 && s.h >= 0
            && s.w == Max(start.x - end.x, end.x - start.x)
            && s.h == Max(start.y - end.y, end.y - start.y)
            && s.x + s.w == Max(start.x, end.x) && s.y + s.h == Max(start.y, end.y)
            && s.x <= start.x <= s.x + s.w && s.x <= end.x <= s.x + s.w
            && s.y <= start.y <= s.y + s.h && s.y <= end.y <= s.y + s.h
  {
  }

  /** Without the no-overflow condition `Math.abs` of the wrapped difference can be negative:
      a drag from x = 2147483647 to x = -1 yields the width `Integer.MIN_VALUE`. */
  lemma OverflowedWidth()
    ensures CreateShape(Tools.Rectangle, Point(MaxInt, 0), Point(-1, 0))
            == Some(Rect(-1, 0, MinInt, 0))
  {
  }
}
