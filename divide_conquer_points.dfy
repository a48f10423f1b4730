/** The divide-and-conquer hull of convexhull2.py: `LTChecker`, `UTChecker`,
    `LT`, `UT`, `computeHullDC` and `computeHull`. Unlike convexhull.py, the
    tangent search here tracks points rather than indices, re-finds each
    point's index with `list.index`, and never divides by zero: the checker
    catches the fault of `yint` on a vertical line and answers True. */
module DivideConquerPoints {
  import opened Outcomes
  import opened Points
  import opened Geometry
  import opened AngularSort
  import opened Merge

  /** `math.ceil(len(points) / 2)`: the size of the left half. */
  function CeilHalf(n: nat): (split: nat)
    ensures n <= 2 * split <= n + 1
  {
    (n + 1) / 2
  }

  /** `LTChecker(p, points, a, b)`: whether both neighbours of position p
      lie on or above the line through a and b. When a and b share an x
      coordinate `yint` raises and the checker answers True. */
  function LTChecker(p: int, points: seq<Point>, a: Point, b: Point): (good: bool)
    requires points != []
    ensures good <==> (a.x == b.x ||
      (OnOrAbove(a, b, points[(p - 1) % |points|]) && OnOrAbove(a, b, points[(p + 1) % |points|])))
  {
    var be := (p - 1) % |points|;
    var af := (p + 1) % |points|;
    match Yint(a, b, 0.0, 1.0, 2.0)
    case Err(_) => true
    case Ok(inter) =>
      var slope := (b.y - a.y) / (b.x - a.x);
      var bey := slope * points[be].x + inter.y;
      var afy := slope * points[af].x + inter.y;
      SlopeInterceptThrough(a, b);
      AboveLineIffArea(a, b, slope, inter.y, points[be]);
      AboveLineIffArea(a, b, slope, inter.y, points[af]);
      bey <= points[be].y && afy <= points[af].y
  }

  /** `UTChecker(p, points, a, b)`: the mirror test, both neighbours on or
      below the line through a and b; True for a vertical line. */
  function UTChecker(p: int, points: seq<Point>, a: Point, b: Point): (good: bool)
    requires points != []
    ensures good <==> (a.x == b.x ||
      (OnOrBelow(a, b, points[(p - 1) % |points|]) && OnOrBelow(a, b, points[(p + 1) % |points|])))
  {
    var be := (p - 1) % |points|;
    var af := (p + 1) % |points|;
    match Yint(a, b, 0.0, 1.0, 2.0)
    case Err(_) => true
    case Ok(inter) =>
      var slope := (b.y - a.y) / (b.x - a.x);
      var bey := slope * points[be].x + inter.y;
      var afy := slope * points[af].x + inter.y;
      SlopeInterceptThrough(a, b);
      AboveLineIffArea(a, b, slope, inter.y, points[be]);
      AboveLineIffArea(a, b, slope, inter.y, points[af]);
      bey >= points[be].y && afy >= points[af].y
  }

  /** a and b occur in the clockwise-sorted copies, and both pass the lower
      checker at the index `list.index` gives them. */
  predicate LowerSettledAt(tempA: seq<Point>, tempB: seq<Point>, a: Point, b: Point)
  {
    a in tempA && b in tempB &&
    LTChecker(IndexOf(tempA, a), tempA, a, b) && LTChecker(IndexOf(tempB, b), tempB, a, b)
  }

  /** The same for the upper checker. */
  predicate UpperSettledAt(tempA: seq<Point>, tempB: seq<Point>, a: Point, b: Point)
  {
    a in tempA && b in tempB &&
    UTChecker(IndexOf(tempA, a), tempA, a, b) && UTChecker(IndexOf(tempB, b), tempB, a, b)
  }

  /** `LT(A, B)`: starting from A[-1] and B[0], step a backwards around the
      clockwise-sorted copy of A and b forwards around that of B until both
      pass the lower checker; returns the two points. `fuel` bounds the
      total number of loop iterations; the source has no such bound. */
  method LT(A: seq<Point>, B: seq<Point>, angle: Angle, fuel: nat) returns (r: Result<(Point, Point)>)
    ensures r == Err(IndexError) <==> A == [] || B == []
    ensures r.Err? ==> r.error == IndexError || r.error == OutOfFuel
    ensures r.Ok? ==> r.value.0 in A && r.value.1 in B
    ensures r.Ok? ==> LowerSettledAt(ClockwiseSort(A, angle).value, ClockwiseSort(B, angle).value, r.value.0, r.value.1)
  {
    if |A| == 0 || |B| == 0 {
      return Err(IndexError);
    }
    var a := A[|A| - 1];
    var b := B[0];
    var tempA := ClockwiseSort(A, angle).value;
    var tempB := ClockwiseSort(B, angle).value;
    assert a in multiset(tempA) && b in multiset(tempB);
    var indexa := IndexOf(tempA, a);
    var indexb := IndexOf(tempB, b);
    var steps := fuel;
    while !LTChecker(indexa, tempA, a, b) || !LTChecker(indexb, tempB, a, b)
      invariant a in tempA && indexa == IndexOf(tempA, a)
      invariant b in tempB && indexb == IndexOf(tempB, b)
      decreases steps
    {
      if steps == 0 {
        return Err(OutOfFuel);
      }
      steps := steps - 1;
      ghost var budget := steps;
      while !LTChecker(indexa, tempA, a, b)
        invariant a in tempA && indexa == IndexOf(tempA, a) && steps <= budget
        decreases steps
      {
        if steps == 0 {
          return Err(OutOfFuel);
        }
        steps := steps - 1;
        a := tempA[(indexa - 1) % |A|];
        indexa := IndexOf(tempA, a);
      }
      while !LTChecker(indexb, tempB, a, b)
        invariant b in tempB && indexb == IndexOf(tempB, b) && steps <= budget
        decreases steps
      {
        if steps == 0 {
          return Err(OutOfFuel);
        }
        steps := steps - 1;
        b := tempB[(indexb + 1) % |B|];
        indexb := IndexOf(tempB, b);
      }
    }
    assert a in multiset(A) && b in multiset(B);
    r := Ok((a, b));
  }

  /** `UT(A, B)`: the mirror search, a forwards and b backwards, until both
      pass the upper checker. */
  method UT(A: seq<Point>, B: seq<Point>, angle: Angle, fuel: nat) returns (r: Result<(Point, Point)>)
    ensures r == Err(IndexError) <==> A == [] || B == []
    ensures r.Err? ==> r.error == IndexError || r.error == OutOfFuel
    ensures r.Ok? ==> r.value.0 in A && r.value.1 in B
    ensures r.Ok? ==> UpperSettledAt(ClockwiseSort(A, angle).value, ClockwiseSort(B, angle).value, r.value.0, r.value.1)
  {
    if |A| == 0 || |B| == 0 {
      return Err(IndexError);
    }
    var a := A[|A| - 1];
    var b := B[0];
    var tempA := ClockwiseSort(A, angle).value;
    var tempB := ClockwiseSort(B, angle).value;
    assert a in multiset(tempA) && b in multiset(tempB);
    var indexa := IndexOf(tempA, a);
    var indexb := IndexOf(tempB, b);
    var steps := fuel;
    while !UTChecker(indexa, tempA, a, b) || !UTChecker(indexb, tempB, a, b)
      invariant a in tempA && indexa == IndexOf(tempA, a)
      invariant b in tempB && indexb == IndexOf(tempB, b)
      decreases steps
    {
      if steps == 0 {
        return Err(OutOfFuel);
      }
      steps := steps - 1;
      ghost var budget := steps;
      while !UTChecker(indexa, tempA, a, b)
        invariant a in tempA && indexa == IndexOf(tempA, a) && steps <= budget
        decreases steps
      {
        if steps == 0 {
          return Err(OutOfFuel);
        }
        steps := steps - 1;
        a := tempA[(indexa + 1) % |A|];
        indexa := IndexOf(tempA, a);
      }
      while !UTChecker(indexb, tempB, a, b)
        invariant b in tempB && indexb == IndexOf(tempB, b) && steps <= budget
        decreases steps
      {
        if steps == 0 {
          return Err(OutOfFuel);
        }
        steps := steps - 1;
        b := tempB[(indexb - 1) % |B|];
        indexb := IndexOf(tempB, b);
      }
    }
    assert a in multiset(A) && b in multiset(B);
    r := Ok((a, b));
  }

  /** `combine` is the sorted list of the arcs of the clockwise-sorted
      halves cwA and cwB between the lower-tangent points (lta, ltb) and the
      upper-tangent points (uta, utb), each located with `list.index`. */
  ghost predicate CombinedAtTangents(cwA: seq<Point>, cwB: seq<Point>, combine: seq<Point>)
  {
    exists lta: Point, ltb: Point, uta: Point, utb: Point ::
      LowerSettledAt(cwA, cwB, lta, ltb) && UpperSettledAt(cwA, cwB, uta, utb) &&
      combine == SortLex(Arcs(cwA, cwB, IndexOf(cwA, lta), IndexOf(cwB, ltb), IndexOf(cwA, uta), IndexOf(cwB, utb)))
  }

  /** The merging half of `computeHullDC`: find both tangents with `LT` and
      `UT`, clockwise-sort both halves, locate the tangent points with
      `list.index`, collect the arcs between them and sort. */
  method JoinHalves(A: seq<Point>, B: seq<Point>, angle: Angle, fuel: nat) returns (r: Result<seq<Point>>)
    ensures r == Err(IndexError) <==> A == [] || B == []
    ensures r.Err? ==> r.error == IndexError || r.error == OutOfFuel
    ensures r.Ok? ==> LexSorted(r.value) && r.value != []
    ensures r.Ok? ==> multiset(r.value) <= multiset(A) + multiset(B)
    ensures r.Ok? ==> (A != [] && B != [] &&
      CombinedAtTangents(ClockwiseSort(A, angle).value, ClockwiseSort(B, angle).value, r.value))
  {
    var lt := LT(A, B, angle, fuel);
    if lt.Err? {
      return Err(lt.error);
    }
    var ut := UT(A, B, angle, fuel);
    if ut.Err? {
      return Err(ut.error);
    }
    var (lta, ltb) := lt.value;
    var (uta, utb) := ut.value;
    var cwA := ClockwiseSort(A, angle).value;
    var cwB := ClockwiseSort(B, angle).value;
    var sa := IndexOf(cwA, uta);
    var ea := IndexOf(cwA, lta);
    var sb := IndexOf(cwB, ltb);
    var eb := IndexOf(cwB, utb);
    var combine := MergeArcs(cwA, cwB, ea, sb, sa, eb);
    MergedHull(cwA, cwB, ea, sb, sa, eb);
    assert CombinedAtTangents(cwA, cwB, combine);
    r := Ok(combine);
  }

  /** `computeHullDC(points)`: split at ceil(n / 2), hull a half recursively
      only when it has more than three points, then join the two halves.
      With at most one point one half is empty and `A[-1]` or `B[0]` raises
      IndexError. */
  method ComputeHullDC(points: seq<Point>, angle: Angle, fuel: nat) returns (r: Result<seq<Point>>)
    ensures r == Err(IndexError) <==> |points| <= 1
    ensures r.Err? ==> r.error == IndexError || r.error == OutOfFuel
    ensures r.Ok? ==> LexSorted(r.value) && r.value != []
    ensures r.Ok? ==> multiset(r.value) <= multiset(points)
    decreases |points|
  {
    var split := CeilHalf(|points|);
    var A := points[..split];
    var B := points[split..];
    assert points == A + B;
    if |A| > 3 {
      var hullA := ComputeHullDC(A, angle, fuel);
      if hullA.Err? {
        return hullA;
      }
      A := hullA.value;
    }
    if |B| > 3 {
      var hullB := ComputeHullDC(B, angle, fuel);
      if hullB.Err? {
        return hullB;
      }
      B := hullB.value;
    }
    assert multiset(A) + multiset(B) <= multiset(points);
    r := JoinHalves(A, B, angle, fuel);
  }

  /** `computeHull(points)`: sorts the caller's list in place, runs the
      divide-and-conquer builder on it and clockwise-sorts the new list it
      returns. */
  method ComputeHull(points: array<Point>, angle: Angle, fuel: nat) returns (r: Result<seq<Point>>)
    modifies points
    ensures points[..] == SortLex(old(points[..]))
    ensures r == Err(IndexError) <==> points.Length <= 1
    ensures r.Err? ==> r.error == IndexError || r.error == OutOfFuel
    ensures r.Ok? ==> r.value != [] && multiset(r.value) <= multiset(old(points[..]))
    ensures r.Ok? ==> KeySorted(r.value, angle, Centroid(r.value))
  {
    SortInPlace(points);
    var result := ComputeHullDC(points[..], angle, fuel);
    if result.Err? {
      return result;
    }
    r := ClockwiseSort(result.value, angle);
    ClockwiseSorted(result.value, angle);
  }
}
