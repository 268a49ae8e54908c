/** The drawing primitives' value types: pixel sizes and areas, points,
    shapes, and the conversion from figure coordinates (origin at the bottom
    left, y up) to the backend's coordinates (origin at the top left, y down).
    Unsigned 32-bit arithmetic wraps around as in a release build. */
module Draw {

  const U32_LIMIT: int := 0x1_0000_0000

  newtype u32 = x: int | 0 <= x < 0x1_0000_0000

  /** Subtraction of two `u32`s, wrapping around below zero. */
  function SubU32(a: u32, b: u32): (r: u32)
    ensures b <= a ==> r as int == a as int - b as int
    ensures a < b ==> r as int == a as int - b as int + U32_LIMIT
  {
    ((a as int - b as int) % U32_LIMIT) as u32
  }

  /** Multiplication of two `u32`s, wrapping around past the limit. */
  function MulU32(a: u32, b: u32): (r: u32)
    ensures a as int * b as int < U32_LIMIT ==> r as int == a as int * b as int
  {
    var p := a as int * b as int;
    assert 0 <= p by { NonNegProduct(a as int, b as int); }
    (p % U32_LIMIT) as u32
  }

  lemma NonNegProduct(x: int, y: int)
    requires 0 <= x && 0 <= y
    ensures 0 <= x * y
  {
  }

  datatype Size = Size(width: u32, height: u32)

  datatype Point = Point(x: real, y: real)

  datatype Color = Color(r: real, g: real, b: real, a: real)

  const TRANSPARENT := Color(0.0, 0.0, 0.0, 0.0)

  /** A rectangle of pixels. */
  datatype Area = Area(xmin: u32, xmax: u32, ymin: u32, ymax: u32)
  {
    predicate Ordered()
    {
      xmin <= xmax && ymin <= ymax
    }

    /** Width of the area. */
    function XSize(): (r: u32)
      ensures Ordered() ==> xmin as int + r as int == xmax as int
    {
      SubU32(xmax, xmin)
    }

    /** Height of the area. */
    function YSize(): (r: u32)
      ensures Ordered() ==> ymin as int + r as int == ymax as int
    {
      SubU32(ymax, ymin)
    }

    /** The pixel point at fraction `frac` of the way across the area. */
    function FractionalToPoint(frac: Point): Point
    {
      Point(xmin as real + Scale(frac.x, XSize()),
            ymin as real + Scale(frac.y, YSize()))
    }

    predicate ContainsPoint(p: Point)
    {
      xmin as real <= p.x <= xmax as real && ymin as real <= p.y <= ymax as real
    }
  }

  /** The fraction `t` of `n` pixels, `t * n as f64`. It is written as
      repeated addition so that proofs about it stay in linear arithmetic;
      ScaleIsProduct shows it is the product. */
  function Scale(t: real, n: u32): real
    decreases n
  {
    if n == 0 then 0.0 else t + Scale(t, n - 1)
  }

  lemma {:induction false} ScaleIsProduct(t: real, n: u32)
    ensures Scale(t, n) == t * n as real
    decreases n
  {
    if n != 0 {
      ScaleIsProduct(t, n - 1);
      assert t * n as real == t + t * (n - 1) as real;
    }
  }

  /** A fraction in [0, 1] of `n` pixels lies in [0, n]. */
  lemma {:induction false} ScaleWithin(t: real, n: u32)
    requires 0.0 <= t <= 1.0
    ensures 0.0 <= Scale(t, n) <= n as real
    decreases n
  {
    if n != 0 {
      ScaleWithin(t, n - 1);
    }
  }

  /** Scaling distributes over a sum of fractions. */
  lemma {:induction false} ScaleAdditive(t: real, d: real, n: u32)
    ensures Scale(t + d, n) == Scale(t, n) + Scale(d, n)
    decreases n
  {
    if n != 0 {
      ScaleAdditive(t, d, n - 1);
    }
  }

  lemma {:induction false} ScaleEnds(n: u32)
    ensures Scale(0.0, n) == 0.0 && Scale(1.0, n) == n as real
    decreases n
  {
    if n != 0 {
      ScaleEnds(n - 1);
    }
  }

  /** The origin of the fractional coordinates is the bottom-left corner and
      the point (1, 1) the top-right corner. */
  lemma FractionalToPointCorners(area: Area)
    requires area.Ordered()
    ensures area.FractionalToPoint(Point(0.0, 0.0)) == Point(area.xmin as real, area.ymin as real)
    ensures area.FractionalToPoint(Point(1.0, 1.0)) == Point(area.xmax as real, area.ymax as real)
  {
    ScaleEnds(area.XSize());
    ScaleEnds(area.YSize());
  }

  /** Every fraction in the unit square lands inside the area. */
  lemma FractionalToPointInside(area: Area, frac: Point)
    requires area.Ordered()
    requires 0.0 <= frac.x <= 1.0 && 0.0 <= frac.y <= 1.0
    ensures area.ContainsPoint(area.FractionalToPoint(frac))
  {
    ScaleWithin(frac.x, area.XSize());
    ScaleWithin(frac.y, area.YSize());
  }

  /** The conversion is affine: moving the fraction by `d` moves the point by
      `d` times the size of the area. */
  lemma FractionalToPointAffine(area: Area, frac: Point, dx: real, dy: real)
    ensures area.FractionalToPoint(Point(frac.x + dx, frac.y + dy)) ==
            Point(area.FractionalToPoint(frac).x + Scale(dx, area.XSize()),
                  area.FractionalToPoint(frac).y + Scale(dy, area.YSize()))
  {
    ScaleAdditive(frac.x, dx, area.XSize());
    ScaleAdditive(frac.y, dy, area.YSize());
  }

  datatype Shape = Circle(r: u32) | Square(l: u32) | Rectangle(h: u32, w: u32)
  {
    /** The shape with every dimension multiplied by `mult`. */
    function Scaled(mult: u32): (r: Shape)
      ensures r.Circle? == Circle? && r.Square? == Square? && r.Rectangle? == Rectangle?
    {
      match this
      case Circle(r) => Circle(MulU32(mult, r))
      case Square(l) => Square(MulU32(mult, l))
      case Rectangle(h, w) => Rectangle(MulU32(mult, h), MulU32(mult, w))
    }
  }

  /** A shape held in a mutable place, scaled in place. */
  class ShapeCell {
    var shape: Shape

    constructor (s: Shape)
      ensures shape == s
    {
      shape := s;
    }

    method Scale(mult: u32)
      modifies this
      ensures shape == old(shape).Scaled(mult)
    {
      shape := shape.Scaled(mult);
    }
  }

  lemma MulModLeft(b: int, x: int)
    ensures (b * (x % U32_LIMIT)) % U32_LIMIT == (b * x) % U32_LIMIT
  {
    var q := x / U32_LIMIT;
    assert x == q * U32_LIMIT + x % U32_LIMIT;
    assert b * x == (b * q) * U32_LIMIT + b * (x % U32_LIMIT);
    ModAddMultiple(b * (x % U32_LIMIT), b * q);
  }

  lemma ModAddMultiple(y: int, k: int)
    ensures (k * U32_LIMIT + y) % U32_LIMIT == y % U32_LIMIT
  {
  }

  lemma MulU32Compose(a: u32, b: u32, x: u32)
    ensures MulU32(b, MulU32(a, x)) == MulU32(MulU32(b, a), x)
  {
    calc {
      MulU32(b, MulU32(a, x)) as int;
      (b as int * ((a as int * x as int) % U32_LIMIT)) % U32_LIMIT;
      { MulModLeft(b as int, a as int * x as int); }
      (b as int * (a as int * x as int)) % U32_LIMIT;
      { assert b as int * (a as int * x as int) == x as int * (b as int * a as int); }
      (x as int * (b as int * a as int)) % U32_LIMIT;
      { MulModLeft(x as int, b as int * a as int); }
      (x as int * ((b as int * a as int) % U32_LIMIT)) % U32_LIMIT;
      { assert x as int * ((b as int * a as int) % U32_LIMIT) == ((b as int * a as int) % U32_LIMIT) * x as int; }
      MulU32(MulU32(b, a), x) as int;
    }
  }

  /** Scaling by one changes nothing, and scaling by `a` and then by `b` is
      scaling once by the (wrapped) product of the two factors. */
  lemma ScaledComposes(s: Shape, a: u32, b: u32)
    ensures s.Scaled(1) == s
    ensures s.Scaled(a).Scaled(b) == s.Scaled(MulU32(b, a))
  {
    match s
    case Circle(r) => MulU32Compose(a, b, r);
    case Square(l) => MulU32Compose(a, b, l);
    case Rectangle(h, w) => MulU32Compose(a, b, h); MulU32Compose(a, b, w);
  }

  /** A point in the backend's coordinates. */
  datatype CairoPoint = CairoPoint(x: real, y: real)

  /** Figure coordinates to backend coordinates: the y axis is flipped about
      the figure's height. */
  function FromPoint(p: Point, size: Size): CairoPoint
  {
    CairoPoint(p.x, size.height as real - p.y)
  }

  /** The flip is its own inverse, and it reverses vertical order. */
  lemma FromPointInvolution(p: Point, q: Point, size: Size)
    ensures var c := FromPoint(p, size); FromPoint(Point(c.x, c.y), size) == CairoPoint(p.x, p.y)
    ensures p.y < q.y <==> FromPoint(q, size).y < FromPoint(p, size).y
    ensures FromPoint(Point(p.x, 0.0), size).y == size.height as real
  {
  }

  /** Lines of odd width are drawn half a pixel off so that they cover whole
      pixels. */
  function LineOffset(width: u32): (r: real)
    ensures r == 0.5 <==> width % 2 == 1
    ensures r == 0.0 || r == 0.5
  {
    if width % 2 == 0 then 0.0 else 0.5
  }

  /** A line or curve vertex as passed to the backend. */
  function StrokePoint(p: Point, size: Size, width: u32): CairoPoint
  {
    var c := FromPoint(p, size);
    CairoPoint(c.x + LineOffset(width), c.y - LineOffset(width))
  }

  /** In figure coordinates the odd-width offset moves a point half a pixel
      right and half a pixel up; even widths leave it in place. */
  lemma StrokePointShift(p: Point, size: Size, width: u32)
    ensures width % 2 == 0 ==> StrokePoint(p, size, width) == FromPoint(p, size)
    ensures width % 2 == 1 ==> StrokePoint(p, size, width) == FromPoint(Point(p.x + 0.5, p.y + 0.5), size)
  {
  }

  /** The corners of a clip area in the order they are traced. */
  function ClipCorners(area: Area): seq<Point>
  {
    [Point(area.xmin as real, area.ymin as real),
     Point(area.xmin as real, area.ymax as real),
     Point(area.xmax as real, area.ymax as real),
     Point(area.xmax as real, area.ymin as real)]
  }

  /** The clip path in backend coordinates. */
  function ClipPath(area: Area, size: Size): (r: seq<CairoPoint>)
    ensures |r| == |ClipCorners(area)|
    ensures forall i :: 0 <= i < |r| ==> r[i] == FromPoint(ClipCorners(area)[i], size)
  {
    seq(4, i requires 0 <= i < 4 => FromPoint(ClipCorners(area)[i], size))
  }

  /** Moving from `p` to `q` keeps exactly one of the two coordinates. */
  predicate OneCoordinateKept(p: CairoPoint, q: CairoPoint)
  {
    (p.x == q.x) != (p.y == q.y)
  }

  /** The clip path visits the four corners of the area, each once, and every
      edge of the closed path (the last corner back to the first included) is
      axis-parallel: it keeps one coordinate. */
  lemma ClipPathTracesRectangle(area: Area, size: Size)
    requires area.xmin < area.xmax && area.ymin < area.ymax
    ensures var r := ClipPath(area, size);
      |r| == 4 &&
      (forall i, j :: 0 <= i < j < 4 ==> r[i] != r[j]) &&
      OneCoordinateKept(r[0], r[1]) && OneCoordinateKept(r[1], r[2]) &&
      OneCoordinateKept(r[2], r[3]) && OneCoordinateKept(r[3], r[0]) &&
      (forall i :: 0 <= i < 4 ==>
         r[i].x in {area.xmin as real, area.xmax as real} &&
         r[i].y in {size.height as real - area.ymin as real, size.height as real - area.ymax as real})
  {
    var r := ClipPath(area, size);
    assert r[0] == CairoPoint(area.xmin as real, size.height as real - area.ymin as real);
    assert r[1] == CairoPoint(area.xmin as real, size.height as real - area.ymax as real);
    assert r[2] == CairoPoint(area.xmax as real, size.height as real - area.ymax as real);
    assert r[3] == CairoPoint(area.xmax as real, size.height as real - area.ymin as real);
  }
}
