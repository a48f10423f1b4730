/** The geometric primitives shared, with identical text, by both hull
    modules: `yint`, `triangleArea`, `cw`, `ccw`, `collinear` and EPSILON. */
module Geometry {
  import opened Outcomes
  import opened Points

  /** `sys.float_info.epsilon`, the gap between 1.0 and the next double: 2^-52. */
  const Epsilon: real := 1.0 / 4503599627370496.0

  /** The cross product of the vectors (ux, uy) and (vx, vy). */
  function Cross(ux: real, uy: real, vx: real, vy: real): real
  {
    ux * vy - uy * vx
  }

  /** `yint(p1, p2, x, y3, y4)`: the intersection of the line through p1, p2
      with the vertical line through (x, y3) and (x, y4), by the two-line
      intersection formula: a point at the requested x that is collinear
      with p1 and p2. Python raises ZeroDivisionError when the common
      denominator is zero. */
  function Yint(p1: Point, p2: Point, x: real, y3: real, y4: real): (r: Result<Point>)
    ensures r.Err? <==> p1.x == p2.x || y3 == y4
    ensures r.Err? ==> r.error == ZeroDivision
    ensures r.Ok? ==> r.value.x == x
    ensures r.Ok? ==> TriangleArea(p1, p2, r.value) == 0.0
  {
    var x1, y1, x2, y2, x3, x4 := p1.x, p1.y, p2.x, p2.y, x, x;
    var d := (x1 - x2) * (y3 - y4) - (y1 - y2) * (x3 - x4);
    assert d == (x1 - x2) * (y3 - y4);
    if d == 0.0 then
      Err(ZeroDivision)
    else
      var px := ((x1 * y2 - y1 * x2) * (x3 - x4) - (x1 - x2) * (x3 * y4 - y3 * x4)) / d;
      var py := ((x1 * y2 - y1 * x2) * (y3 - y4) - (y1 - y2) * (x3 * y4 - y3 * x4)) / d;
      assert (x1 * y2 - y1 * x2) * (x3 - x4) - (x1 - x2) * (x3 * y4 - y3 * x4) == x * d;
      Ok(Point(px, py))
  }

  /** `triangleArea(a, b, c)`: the signed (shoelace) area of the triangle. */
  function TriangleArea(a: Point, b: Point, c: Point): (area: real)
    ensures area == Cross(b.x - a.x, b.y - a.y, c.x - a.x, c.y - a.y) / 2.0
  {
    (a.x * b.y - a.y * b.x + a.y * c.x - a.x * c.y + b.x * c.y - c.x * b.y) / 2.0
  }

  /** `cw(a, b, c)`: a clockwise turn up to EPSILON, read off the cross
      product of b - a and c - a. Every strictly clockwise or collinear
      triple passes. */
  predicate Cw(a: Point, b: Point, c: Point): (cw: bool)
    ensures cw <==> Cross(b.x - a.x, b.y - a.y, c.x - a.x, c.y - a.y) < 2.0 * Epsilon
    ensures Cross(b.x - a.x, b.y - a.y, c.x - a.x, c.y - a.y) <= 0.0 ==> cw
  {
    TriangleArea(a, b, c) < Epsilon
  }

  /** `ccw(a, b, c)`: a counter-clockwise turn by more than EPSILON; it
      implies a strictly positive cross product. */
  predicate Ccw(a: Point, b: Point, c: Point): (ccw: bool)
    ensures ccw <==> Cross(b.x - a.x, b.y - a.y, c.x - a.x, c.y - a.y) > 2.0 * Epsilon
    ensures ccw ==> Cross(b.x - a.x, b.y - a.y, c.x - a.x, c.y - a.y) > 0.0
  {
    TriangleArea(a, b, c) > Epsilon
  }

  /** `collinear(a, b, c)`: |area| at most EPSILON, that is a cross product
      within [-2 EPSILON, 2 EPSILON]; exactly collinear triples pass. */
  predicate Collinear(a: Point, b: Point, c: Point): (col: bool)
    ensures col <==> -2.0 * Epsilon <= Cross(b.x - a.x, b.y - a.y, c.x - a.x, c.y - a.y) <= 2.0 * Epsilon
    ensures Cross(b.x - a.x, b.y - a.y, c.x - a.x, c.y - a.y) == 0.0 ==> col
  {
    (if TriangleArea(a, b, c) < 0.0 then -TriangleArea(a, b, c) else TriangleArea(a, b, c)) <= Epsilon
  }

  /** The intercept `yint(p1, p2, 0, 1, 2)` the tangent code asks for: it
      exists exactly when the x coordinates differ, it lies at x = 0 on the
      line through p1 and p2, and its y is (x1*y2 - y1*x2) / (x1 - x2). */
  lemma YinterceptAtZero(p1: Point, p2: Point)
    ensures Yint(p1, p2, 0.0, 1.0, 2.0).Ok? <==> p1.x != p2.x
    ensures p1.x != p2.x ==>
      Yint(p1, p2, 0.0, 1.0, 2.0) == Ok(Point(0.0, (p1.x * p2.y - p1.y * p2.x) / (p1.x - p2.x)))
    ensures p1.x != p2.x ==> TriangleArea(p1, p2, Yint(p1, p2, 0.0, 1.0, 2.0).value) == 0.0
  {
    if p1.x != p2.x {
      var x1, y1, x2, y2 := p1.x, p1.y, p2.x, p2.y;
      var d := (x1 - x2) * (1.0 - 2.0) - (y1 - y2) * (0.0 - 0.0);
      var num := (x1 * y2 - y1 * x2) * (1.0 - 2.0) - (y1 - y2) * (0.0 * 2.0 - 1.0 * 0.0);
      assert d == x2 - x1 && num == y1 * x2 - x1 * y2;
      var c := (x1 * y2 - y1 * x2) / (x1 - x2);
      assert num / d == c by {
        assert c * (x1 - x2) == x1 * y2 - y1 * x2;
        assert c * d == num;
      }
      var r := Yint(p1, p2, 0.0, 1.0, 2.0);
      assert r.Ok? && r.value.x == 0.0;
      assert r.value.y == num / d;
      var q := Point(0.0, c);
      assert r.value == q;
      assert q == Point(0.0, (p1.x * p2.y - p1.y * p2.x) / (p1.x - p2.x));
      assert c * (x1 - x2) == x1 * y2 - y1 * x2;
      assert 2.0 * TriangleArea(p1, p2, q) == x1 * y2 - y1 * x2 + y1 * 0.0 - x1 * c + x2 * c - 0.0 * y2;
    }
  }

  /** The line y = m*x + c with m = (y2 - y1) / (x2 - x1), the slope both
      hull modules compute, and c the y of `yint(p1, p2, 0, 1, 2)` passes
      through p1 and p2. */
  lemma SlopeInterceptThrough(p1: Point, p2: Point)
    requires p1.x != p2.x
    ensures var m, c := (p2.y - p1.y) / (p2.x - p1.x), Yint(p1, p2, 0.0, 1.0, 2.0).value.y;
      m * p1.x + c == p1.y && m * p2.x + c == p2.y
  {
    var x1, y1, x2, y2 := p1.x, p1.y, p2.x, p2.y;
    var m, c := (y2 - y1) / (x2 - x1), (x1 * y2 - y1 * x2) / (x1 - x2);
    YinterceptAtZero(p1, p2);
    assert Yint(p1, p2, 0.0, 1.0, 2.0).value.y == c;
    assert m * (x2 - x1) == y2 - y1;
    assert c * (x1 - x2) == x1 * y2 - y1 * x2;
    assert (m * x1 + c) * (x1 - x2) == y1 * (x1 - x2);
    assert (m * x2 + c) * (x1 - x2) == y2 * (x1 - x2);
  }

  /** The signed area is half the cross product of b - a and c - a, changes
      sign when two corners swap, is kept by a cyclic rotation of the corners
      and vanishes when two corners coincide. */
  lemma AreaSymmetries(a: Point, b: Point, c: Point)
    ensures TriangleArea(b, a, c) == -TriangleArea(a, b, c)
    ensures TriangleArea(a, c, b) == -TriangleArea(a, b, c)
    ensures TriangleArea(b, c, a) == TriangleArea(a, b, c)
    ensures TriangleArea(a, a, c) == 0.0 && TriangleArea(a, b, b) == 0.0 && TriangleArea(a, b, a) == 0.0
  {
  }

  /** How the three tolerance tests relate: cw and ccw exclude each other,
      ccw excludes collinear, and an area in [-EPSILON, EPSILON) is both
      clockwise and collinear. */
  lemma ToleranceTests(a: Point, b: Point, c: Point)
    ensures !(Cw(a, b, c) && Ccw(a, b, c))
    ensures Ccw(a, b, c) ==> !Collinear(a, b, c)
    ensures Cw(a, b, c) && Collinear(a, b, c) <==> -Epsilon <= TriangleArea(a, b, c) < Epsilon
    ensures Cw(a, b, c) || Ccw(a, b, c) || TriangleArea(a, b, c) == Epsilon
  {
  }

  /** p lies on or above the non-vertical line through a and b. */
  predicate OnOrAbove(a: Point, b: Point, p: Point)
  {
    if a.x < b.x then TriangleArea(a, b, p) >= 0.0 else TriangleArea(a, b, p) <= 0.0
  }

  /** p lies on or below the non-vertical line through a and b. */
  predicate OnOrBelow(a: Point, b: Point, p: Point)
  {
    if a.x < b.x then TriangleArea(a, b, p) <= 0.0 else TriangleArea(a, b, p) >= 0.0
  }

  /** The sign of a product with a non-zero factor. */
  lemma ProductSign(d: real, e: real)
    requires d != 0.0
    ensures d > 0.0 ==> (d * e >= 0.0 <==> e >= 0.0)
    ensures d < 0.0 ==> (d * e >= 0.0 <==> e <= 0.0)
  {
    if d > 0.0 {
      if e < 0.0 { assert d * e < 0.0; }
    } else {
      if e > 0.0 { assert d * e < 0.0; }
    }
  }

  /** For the line y = m*x + c through a and b (a.x != b.x), a point p lies on
      or above that line exactly when a, b, p turn counter-clockwise or are
      collinear when a is left of b, and clockwise or collinear when a is
      right of b. This ties the tangent code's slope tests to the signed
      area. */
  lemma {:induction false} AboveLineIffArea(a: Point, b: Point, m: real, c: real, p: Point)
    requires a.x != b.x
    requires m * a.x + c == a.y && m * b.x + c == b.y
    ensures m * p.x + c <= p.y <==> OnOrAbove(a, b, p)
    ensures p.y <= m * p.x + c <==> OnOrBelow(a, b, p)
  {
    var d := b.x - a.x;
    var e := p.y - (m * p.x + c);
    assert m * d == b.y - a.y;
    assert d * e == 2.0 * TriangleArea(a, b, p) by {
      assert d * e == d * p.y - m * d * p.x - d * c;
      assert d * c == b.x * c - a.x * c;
      assert a.x * c == a.x * (b.y - m * b.x) && b.x * c == b.x * (a.y - m * a.x);
    }
    ProductSign(d, e);
    ProductSign(d, -e);
  }
}
