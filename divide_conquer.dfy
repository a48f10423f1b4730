/** The divide-and-conquer hull of convexhull.py: `tangent`,
    `lower_tangent_good`, `upper_tangent_good`, `lower_tangent`,
    `upper_tangent`, `_computeHull` and `computeHull`. */
module DivideConquer {
  import opened Outcomes
  import opened Points
  import opened Geometry
  import opened AngularSort
  import opened Merge

  /** `len(points) // 2`: the size of the left half, the smaller one when
      the length is odd. */
  function Median(n: nat): (median: nat)
    ensures median <= n - median <= median + 1
  {
    n / 2
  }

  /** `(i - 1) % n`, Python's modulo, which for n > 0 never goes negative. */
  function Before(i: nat, n: nat): (j: nat)
    requires n > 0
    ensures j < n
  {
    (i - 1) % n
  }

  /** `(i + 1) % n`. */
  function After(i: nat, n: nat): (j: nat)
    requires n > 0
    ensures j < n
  {
    (i + 1) % n
  }

  /** `tangent(p1, p2)`: the slope m and y-intercept yin of the line through
      the two points. The slope is divided out before the `try`, so equal x
      coordinates raise ZeroDivisionError; otherwise `yint` cannot raise and
      the `None` intercept of the `except` branch never occurs. */
  function Tangent(p1: Point, p2: Point): (r: Result<(real, Option<real>)>)
    ensures r.Err? <==> p1.x == p2.x
    ensures r.Err? ==> r.error == ZeroDivision
    ensures r.Ok? ==> r.value.1.Some?
  {
    if p2.x - p1.x == 0.0 then
      Err(ZeroDivision)
    else
      var m := (p2.y - p1.y) / (p2.x - p1.x);
      var yin := match Yint(p1, p2, 0.0, 1.0, 2.0)
        case Ok(pt) => Some(pt.y)
        case Err(_) => None;
      YinterceptAtZero(p1, p2);
      Ok((m, yin))
  }

  /** The line `tangent(p1, p2)` returns passes through both points. */
  lemma TangentThrough(p1: Point, p2: Point)
    requires p1.x != p2.x
    ensures var t := Tangent(p1, p2).value;
      t.0 * p1.x + t.1.value == p1.y && t.0 * p2.x + t.1.value == p2.y
  {
    SlopeInterceptThrough(p1, p2);
    YinterceptAtZero(p1, p2);
  }

  /** `lower_tangent_good`: with no intercept the point counts as settled;
      otherwise both neighbours must lie on or above y = slope*x + intercept,
      that is the line with this slope through either neighbour meets the
      y axis no lower than `intercept`. */
  function LowerTangentGood(before: nat, after: nat, intercept: Option<real>, slope: real, pts: seq<Point>): (good: bool)
    requires before < |pts| && after < |pts|
    ensures intercept.None? ==> good
    ensures intercept.Some? ==> (good <==>
      intercept.value <= pts[before].y - slope * pts[before].x && intercept.value <= pts[after].y - slope * pts[after].x)
  {
    if intercept.None? then true
    else
      var beforePoint := slope * pts[before].x + intercept.value;
      var afterPoint := slope * pts[after].x + intercept.value;
      beforePoint <= pts[before].y && afterPoint <= pts[after].y
  }

  /** `upper_tangent_good`: the mirror test, neighbours on or below the
      line, so the lines through them meet the y axis no higher. */
  function UpperTangentGood(before: nat, after: nat, intercept: Option<real>, slope: real, pts: seq<Point>): (good: bool)
    requires before < |pts| && after < |pts|
    ensures intercept.None? ==> good
    ensures intercept.Some? ==> (good <==>
      pts[before].y - slope * pts[before].x <= intercept.value && pts[after].y - slope * pts[after].x <= intercept.value)
  {
    if intercept.None? then true
    else
      var beforePoint := slope * pts[before].x + intercept.value;
      var afterPoint := slope * pts[after].x + intercept.value;
      pts[before].y <= beforePoint && pts[after].y <= afterPoint
  }

  /** For the line `tangent(a, b)` returns, the lower test holds exactly when
      both neighbours are on or above the line through a and b, in terms of
      the signed area. */
  lemma LowerGoodIffAbove(a: Point, b: Point, before: nat, after: nat, pts: seq<Point>)
    requires a.x != b.x && before < |pts| && after < |pts|
    ensures var t := Tangent(a, b).value;
      LowerTangentGood(before, after, t.1, t.0, pts) <==>
        OnOrAbove(a, b, pts[before]) && OnOrAbove(a, b, pts[after])
  {
    var t := Tangent(a, b).value;
    TangentThrough(a, b);
    AboveLineIffArea(a, b, t.0, t.1.value, pts[before]);
    AboveLineIffArea(a, b, t.0, t.1.value, pts[after]);
  }

  /** The mirror of LowerGoodIffAbove for the upper test. */
  lemma UpperGoodIffBelow(a: Point, b: Point, before: nat, after: nat, pts: seq<Point>)
    requires a.x != b.x && before < |pts| && after < |pts|
    ensures var t := Tangent(a, b).value;
      UpperTangentGood(before, after, t.1, t.0, pts) <==>
        OnOrBelow(a, b, pts[before]) && OnOrBelow(a, b, pts[after])
  {
    var t := Tangent(a, b).value;
    TangentThrough(a, b);
    AboveLineIffArea(a, b, t.0, t.1.value, pts[before]);
    AboveLineIffArea(a, b, t.0, t.1.value, pts[after]);
  }

  /** Both indices pass the lower test for the line through cwsA[ia] and cwsB[ib]. */
  predicate LowerSettled(cwsA: seq<Point>, cwsB: seq<Point>, ia: nat, ib: nat)
    requires ia < |cwsA| && ib < |cwsB|
  {
    match Tangent(cwsA[ia], cwsB[ib])
    case Err(_) => false
    case Ok(t) =>
      LowerTangentGood(Before(ia, |cwsA|), After(ia, |cwsA|), t.1, t.0, cwsA) &&
      LowerTangentGood(Before(ib, |cwsB|), After(ib, |cwsB|), t.1, t.0, cwsB)
  }

  /** Both indices pass the upper test for the line through cwsA[ia] and cwsB[ib]. */
  predicate UpperSettled(cwsA: seq<Point>, cwsB: seq<Point>, ia: nat, ib: nat)
    requires ia < |cwsA| && ib < |cwsB|
  {
    match Tangent(cwsA[ia], cwsB[ib])
    case Err(_) => false
    case Ok(t) =>
      UpperTangentGood(Before(ia, |cwsA|), After(ia, |cwsA|), t.1, t.0, cwsA) &&
      UpperTangentGood(Before(ib, |cwsB|), After(ib, |cwsB|), t.1, t.0, cwsB)
  }

  /** What a settled lower pair means: the line through the two tangent
      points has all four clockwise neighbours on or above it. */
  lemma LowerSettledSupports(cwsA: seq<Point>, cwsB: seq<Point>, ia: nat, ib: nat)
    requires ia < |cwsA| && ib < |cwsB|
    requires LowerSettled(cwsA, cwsB, ia, ib)
    ensures var a, b := cwsA[ia], cwsB[ib];
      a.x != b.x &&
      OnOrAbove(a, b, cwsA[Before(ia, |cwsA|)]) && OnOrAbove(a, b, cwsA[After(ia, |cwsA|)]) &&
      OnOrAbove(a, b, cwsB[Before(ib, |cwsB|)]) && OnOrAbove(a, b, cwsB[After(ib, |cwsB|)])
  {
    var a, b := cwsA[ia], cwsB[ib];
    LowerGoodIffAbove(a, b, Before(ia, |cwsA|), After(ia, |cwsA|), cwsA);
    LowerGoodIffAbove(a, b, Before(ib, |cwsB|), After(ib, |cwsB|), cwsB);
  }

  /** What a settled upper pair means: all four neighbours on or below the line. */
  lemma UpperSettledSupports(cwsA: seq<Point>, cwsB: seq<Point>, ia: nat, ib: nat)
    requires ia < |cwsA| && ib < |cwsB|
    requires UpperSettled(cwsA, cwsB, ia, ib)
    ensures var a, b := cwsA[ia], cwsB[ib];
      a.x != b.x &&
      OnOrBelow(a, b, cwsA[Before(ia, |cwsA|)]) && OnOrBelow(a, b, cwsA[After(ia, |cwsA|)]) &&
      OnOrBelow(a, b, cwsB[Before(ib, |cwsB|)]) && OnOrBelow(a, b, cwsB[After(ib, |cwsB|)])
  {
    var a, b := cwsA[ia], cwsB[ib];
    UpperGoodIffBelow(a, b, Before(ia, |cwsA|), After(ia, |cwsA|), cwsA);
    UpperGoodIffBelow(a, b, Before(ib, |cwsB|), After(ib, |cwsB|), cwsB);
  }

  /** Where an inner walk of a tangent loop stopped: the index it reached,
      the slope and intercept of the current line, and the fuel left. */
  datatype Walk = Walk(index: nat, slope: real, intercept: Option<real>, fuel: nat)

  /** The first inner loop of `lower_tangent`: step a backwards around cwsA,
      recomputing the line through a and b, until a passes the lower test. */
  method WalkLowerA(cwsA: seq<Point>, b: Point, ia: nat, m: real, yin: Option<real>, fuel: nat)
    returns (r: Result<Walk>)
    requires ia < |cwsA| && Tangent(cwsA[ia], b) == Ok((m, yin))
    ensures r.Err? ==> r.error != IndexError
    ensures r.Ok? ==> r.value.index < |cwsA| && r.value.fuel <= fuel
    ensures r.Ok? ==> Tangent(cwsA[r.value.index], b) == Ok((r.value.slope, r.value.intercept))
    ensures r.Ok? ==> LowerTangentGood(Before(r.value.index, |cwsA|), After(r.value.index, |cwsA|),
                                       r.value.intercept, r.value.slope, cwsA)
    ensures (forall p :: p in cwsA ==> p.x < b.x) ==> r.Err? ==> r.error == OutOfFuel
  {
    var i: nat, steps: nat := ia, fuel;
    var slope, intercept := m, yin;
    while !LowerTangentGood(Before(i, |cwsA|), After(i, |cwsA|), intercept, slope, cwsA)
      invariant i < |cwsA| && steps <= fuel
      invariant Tangent(cwsA[i], b) == Ok((slope, intercept))
      decreases steps
    {
      if steps == 0 {
        return Err(OutOfFuel);
      }
      steps := steps - 1;
      i := (i - 1) % |cwsA|;
      var t := Tangent(cwsA[i], b);
      if t.Err? {
        return Err(t.error);
      }
      slope, intercept := t.value.0, t.value.1;
    }
    r := Ok(Walk(i, slope, intercept, steps));
  }

  /** The second inner loop of `lower_tangent`: step b forwards around cwsB
      until b passes the lower test. */
  method WalkLowerB(a: Point, cwsB: seq<Point>, ib: nat, m: real, yin: Option<real>, fuel: nat)
    returns (r: Result<Walk>)
    requires ib < |cwsB| && Tangent(a, cwsB[ib]) == Ok((m, yin))
    ensures r.Err? ==> r.error != IndexError
    ensures r.Ok? ==> r.value.index < |cwsB| && r.value.fuel <= fuel
    ensures r.Ok? ==> Tangent(a, cwsB[r.value.index]) == Ok((r.value.slope, r.value.intercept))
    ensures r.Ok? ==> LowerTangentGood(Before(r.value.index, |cwsB|), After(r.value.index, |cwsB|),
                                       r.value.intercept, r.value.slope, cwsB)
    ensures (forall q :: q in cwsB ==> a.x < q.x) ==> r.Err? ==> r.error == OutOfFuel
  {
    var i: nat, steps: nat := ib, fuel;
    var slope, intercept := m, yin;
    while !LowerTangentGood(Before(i, |cwsB|), After(i, |cwsB|), intercept, slope, cwsB)
      invariant i < |cwsB| && steps <= fuel
      invariant Tangent(a, cwsB[i]) == Ok((slope, intercept))
      decreases steps
    {
      if steps == 0 {
        return Err(OutOfFuel);
      }
      steps := steps - 1;
      i := (i + 1) % |cwsB|;
      var t := Tangent(a, cwsB[i]);
      if t.Err? {
        return Err(t.error);
      }
      slope, intercept := t.value.0, t.value.1;
    }
    r := Ok(Walk(i, slope, intercept, steps));
  }

  /** The first inner loop of `upper_tangent`: step a forwards around cwsA,
      recomputing the line through cwsA[i] and cwsB[ib], until a passes the
      upper test. */
  method WalkUpperA(cwsA: seq<Point>, cwsB: seq<Point>, ia: nat, ib: nat, m: real, yin: Option<real>, fuel: nat)
    returns (r: Result<Walk>)
    requires ia < |cwsA| && ib < |cwsB| && Tangent(cwsA[ia], cwsB[ib]) == Ok((m, yin))
    ensures r.Err? ==> r.error != IndexError
    ensures r.Ok? ==> r.value.index < |cwsA| && r.value.fuel <= fuel
    ensures r.Ok? ==> Tangent(cwsA[r.value.index], cwsB[ib]) == Ok((r.value.slope, r.value.intercept))
    ensures r.Ok? ==> UpperTangentGood(Before(r.value.index, |cwsA|), After(r.value.index, |cwsA|),
                                       r.value.intercept, r.value.slope, cwsA)
    ensures (forall p :: p in cwsA ==> p.x < cwsB[ib].x) ==> r.Err? ==> r.error == OutOfFuel
  {
    var i: nat, steps: nat := ia, fuel;
    var slope, intercept := m, yin;
    while !UpperTangentGood(Before(i, |cwsA|), After(i, |cwsA|), intercept, slope, cwsA)
      invariant i < |cwsA| && steps <= fuel
      invariant Tangent(cwsA[i], cwsB[ib]) == Ok((slope, intercept))
      decreases steps
    {
      if steps == 0 {
        return Err(OutOfFuel);
      }
      steps := steps - 1;
      i := (i + 1) % |cwsA|;
      var t := Tangent(cwsA[i], cwsB[ib]);
      if t.Err? {
        return Err(t.error);
      }
      slope, intercept := t.value.0, t.value.1;
    }
    r := Ok(Walk(i, slope, intercept, steps));
  }

  /** The second inner loop of `upper_tangent`: step b backwards around cwsB
      until b passes the upper test. */
  method WalkUpperB(a: Point, cwsB: seq<Point>, ib: nat, m: real, yin: Option<real>, fuel: nat)
    returns (r: Result<Walk>)
    requires ib < |cwsB| && Tangent(a, cwsB[ib]) == Ok((m, yin))
    ensures r.Err? ==> r.error != IndexError
    ensures r.Ok? ==> r.value.index < |cwsB| && r.value.fuel <= fuel
    ensures r.Ok? ==> Tangent(a, cwsB[r.value.index]) == Ok((r.value.slope, r.value.intercept))
    ensures r.Ok? ==> UpperTangentGood(Before(r.value.index, |cwsB|), After(r.value.index, |cwsB|),
                                       r.value.intercept, r.value.slope, cwsB)
    ensures (forall q :: q in cwsB ==> a.x < q.x) ==> r.Err? ==> r.error == OutOfFuel
  {
    var i: nat, steps: nat := ib, fuel;
    var slope, intercept := m, yin;
    while !UpperTangentGood(Before(i, |cwsB|), After(i, |cwsB|), intercept, slope, cwsB)
      invariant i < |cwsB| && steps <= fuel
      invariant Tangent(a, cwsB[i]) == Ok((slope, intercept))
      decreases steps
    {
      if steps == 0 {
        return Err(OutOfFuel);
      }
      steps := steps - 1;
      i := (i - 1) % |cwsB|;
      var t := Tangent(a, cwsB[i]);
      if t.Err? {
        return Err(t.error);
      }
      slope, intercept := t.value.0, t.value.1;
    }
    r := Ok(Walk(i, slope, intercept, steps));
  }

  /** The outer loop of `lower_tangent`: alternate the two inner walks until
      the pair (ia, ib) passes both lower tests for the line through them. */
  method LowerSearch(cwsA: seq<Point>, cwsB: seq<Point>, ia0: nat, ib0: nat, m0: real, yin0: Option<real>, fuel: nat)
    returns (r: Result<(nat, nat)>)
    requires ia0 < |cwsA| && ib0 < |cwsB| && Tangent(cwsA[ia0], cwsB[ib0]) == Ok((m0, yin0))
    ensures r.Ok? ==> r.value.0 < |cwsA| && r.value.1 < |cwsB|
    ensures r.Ok? ==> LowerSettled(cwsA, cwsB, r.value.0, r.value.1)
    ensures r.Err? ==> r.error != IndexError
    ensures Separated(cwsA, cwsB) ==> r.Err? ==> r.error == OutOfFuel
  {
    var ia, ib, m, yin := ia0, ib0, m0, yin0;
    var a, b := cwsA[ia], cwsB[ib];
    var steps := fuel;
    while !(LowerTangentGood(Before(ia, |cwsA|), After(ia, |cwsA|), yin, m, cwsA) &&
            LowerTangentGood(Before(ib, |cwsB|), After(ib, |cwsB|), yin, m, cwsB))
      invariant ia < |cwsA| && ib < |cwsB| && a == cwsA[ia] && b == cwsB[ib]
      invariant Tangent(a, b) == Ok((m, yin))
      decreases steps
    {
      if steps == 0 {
        return Err(OutOfFuel);
      }
      steps := steps - 1;
      var walkA := WalkLowerA(cwsA, b, ia, m, yin, steps);
      if walkA.Err? {
        return Err(walkA.error);
      }
      ia, m, yin, steps := walkA.value.index, walkA.value.slope, walkA.value.intercept, walkA.value.fuel;
      a := cwsA[ia];
      var walkB := WalkLowerB(a, cwsB, ib, m, yin, steps);
      if walkB.Err? {
        return Err(walkB.error);
      }
      ib, m, yin, steps := walkB.value.index, walkB.value.slope, walkB.value.intercept, walkB.value.fuel;
      b := cwsB[ib];
    }
    r := Ok((ia, ib));
  }

  /** `lower_tangent(A, B)`: walks a backwards and b forwards around the
      clockwise-sorted copies of A and B until both are settled, and returns
      their indices in those copies. `fuel` bounds the number of loop
      iterations; the source has no such bound. */
  method LowerTangent(A: seq<Point>, B: seq<Point>, angle: Angle, fuel: nat) returns (r: Result<(nat, nat)>)
    ensures r == Err(IndexError) <==> A == [] || B == []
    ensures r.Ok? ==> A != [] && B != [] && r.value.0 < |A| && r.value.1 < |B|
    ensures r.Ok? ==>
      LowerSettled(ClockwiseSort(A, angle).value, ClockwiseSort(B, angle).value, r.value.0, r.value.1)
    ensures Separated(A, B) ==> r != Err(ZeroDivision)
  {
    if |A| == 0 || |B| == 0 {
      return Err(IndexError);
    }
    var a := A[|A| - 1];
    var b := B[0];
    var cwsA := ClockwiseSort(A, angle).value;
    var cwsB := ClockwiseSort(B, angle).value;
    var t := Tangent(a, b);
    if t.Err? {
      assert Separated(A, B) ==> a.x < b.x;
      return Err(t.error);
    }
    assert a in multiset(cwsA) && b in multiset(cwsB);
    var ia: nat := IndexOf(cwsA, a);
    var ib: nat := IndexOf(cwsB, b);
    r := LowerSearch(cwsA, cwsB, ia, ib, t.value.0, t.value.1, fuel);
    if r.Err? && Separated(A, B) {
      SeparatedSubMultiset(A, B, cwsA, cwsB);
    }
  }

  /** The outer loop of `upper_tangent`: alternate the two inner walks until
      the pair (ia, ib) passes both upper tests for the line through them. */
  method UpperSearch(cwsA: seq<Point>, cwsB: seq<Point>, ia0: nat, ib0: nat, m0: real, yin0: Option<real>, fuel: nat)
    returns (r: Result<(nat, nat)>)
    requires ia0 < |cwsA| && ib0 < |cwsB| && Tangent(cwsA[ia0], cwsB[ib0]) == Ok((m0, yin0))
    ensures r.Ok? ==> r.value.0 < |cwsA| && r.value.1 < |cwsB|
    ensures r.Ok? ==> UpperSettled(cwsA, cwsB, r.value.0, r.value.1)
    ensures r.Err? ==> r.error != IndexError
    ensures Separated(cwsA, cwsB) ==> r.Err? ==> r.error == OutOfFuel
  {
    var ia, ib, m, yin := ia0, ib0, m0, yin0;
    var a, b := cwsA[ia], cwsB[ib];
    var steps := fuel;
    while !(UpperTangentGood(Before(ia, |cwsA|), After(ia, |cwsA|), yin, m, cwsA) &&
            UpperTangentGood(Before(ib, |cwsB|), After(ib, |cwsB|), yin, m, cwsB))
      invariant ia < |cwsA| && ib < |cwsB| && a == cwsA[ia] && b == cwsB[ib]
      invariant Tangent(a, b) == Ok((m, yin))
      decreases steps
    {
      if steps == 0 {
        return Err(OutOfFuel);
      }
      steps := steps - 1;
      var walkA := WalkUpperA(cwsA, cwsB, ia, ib, m, yin, steps);
      if walkA.Err? {
        return Err(walkA.error);
      }
      ia, m, yin, steps := walkA.value.index, walkA.value.slope, walkA.value.intercept, walkA.value.fuel;
      a := cwsA[ia];
      var walkB := WalkUpperB(a, cwsB, ib, m, yin, steps);
      if walkB.Err? {
        return Err(walkB.error);
      }
      ib, m, yin, steps := walkB.value.index, walkB.value.slope, walkB.value.intercept, walkB.value.fuel;
      b := cwsB[ib];
    }
    r := Ok((ia, ib));
  }

  /** `upper_tangent(A, B)`: walks a forwards and b backwards until both pass
      the upper test, returning their indices in the clockwise-sorted copies. */
  method UpperTangent(A: seq<Point>, B: seq<Point>, angle: Angle, fuel: nat) returns (r: Result<(nat, nat)>)
    ensures r == Err(IndexError) <==> A == [] || B == []
    ensures r.Ok? ==> A != [] && B != [] && r.value.0 < |A| && r.value.1 < |B|
    ensures r.Ok? ==>
      UpperSettled(ClockwiseSort(A, angle).value, ClockwiseSort(B, angle).value, r.value.0, r.value.1)
    ensures Separated(A, B) ==> r != Err(ZeroDivision)
  {
    if |A| == 0 || |B| == 0 {
      return Err(IndexError);
    }
    var a := A[|A| - 1];
    var b := B[0];
    var cwsA := ClockwiseSort(A, angle).value;
    var cwsB := ClockwiseSort(B, angle).value;
    var t := Tangent(a, b);
    if t.Err? {
      assert Separated(A, B) ==> a.x < b.x;
      return Err(t.error);
    }
    assert a in multiset(cwsA) && b in multiset(cwsB);
    var ia: nat := IndexOf(cwsA, a);
    var ib: nat := IndexOf(cwsB, b);
    r := UpperSearch(cwsA, cwsB, ia, ib, t.value.0, t.value.1, fuel);
    if r.Err? && Separated(A, B) {
      SeparatedSubMultiset(A, B, cwsA, cwsB);
    }
  }

  /** Lines 110-111 of `_computeHull`: the lower and the upper tangent of
      two non-empty clockwise-sorted hulls, as indices (la, lb, ua, ub). */
  method BothTangents(left: seq<Point>, right: seq<Point>, angle: Angle, fuel: nat)
    returns (r: Result<(nat, nat, nat, nat)>)
    requires left != [] && right != []
    ensures r.Ok? ==> r.value.0 < |left| && r.value.1 < |right| && r.value.2 < |left| && r.value.3 < |right|
    ensures r.Ok? ==>
      LowerSettled(ClockwiseSort(left, angle).value, ClockwiseSort(right, angle).value, r.value.0, r.value.1)
    ensures r.Ok? ==>
      UpperSettled(ClockwiseSort(left, angle).value, ClockwiseSort(right, angle).value, r.value.2, r.value.3)
    ensures r.Err? ==> r.error != IndexError
    ensures Separated(left, right) ==> r.Err? ==> r.error == OutOfFuel
  {
    var lower := LowerTangent(left, right, angle, fuel);
    if lower.Err? {
      return Err(lower.error);
    }
    var upper := UpperTangent(left, right, angle, fuel);
    if upper.Err? {
      return Err(upper.error);
    }
    r := Ok((lower.value.0, lower.value.1, upper.value.0, upper.value.1));
  }

  /** `hull` is the sorted list of the arcs between a settled lower tangent
      (la, lb) and a settled upper tangent (ua, ub) of the clockwise-sorted
      hulls L and R, with the size the three append loops give it. */
  ghost predicate JoinedAtTangents(L: seq<Point>, R: seq<Point>, hull: seq<Point>)
  {
    exists la: nat, lb: nat, ua: nat, ub: nat ::
      la < |L| && ua < |L| && lb < |R| && ub < |R| &&
      LowerSettled(L, R, la, lb) && UpperSettled(L, R, ua, ub) &&
      hull == SortLex(Arcs(L, R, la, lb, ua, ub)) &&
      |hull| == (if ua <= la then la - ua + 1 else 0) + (if ub < lb then |R| - lb else 0) + ub + 1
  }
  /** `hull` is the join, at their tangents, of the clockwise-sorted forms of
      two non-empty lists drawn from the two halves of `points` cut at
      `median`. */
  ghost predicate JoinOfHalves(points: seq<Point>, median: nat, angle: Angle, hull: seq<Point>)
    requires median <= |points|
  {
    exists left: seq<Point>, right: seq<Point> ::
      left != [] && right != [] &&
      multiset(left) <= multiset(points[..median]) && multiset(right) <= multiset(points[median..]) &&
      JoinedAtTangents(ClockwiseSort(left, angle).value, ClockwiseSort(right, angle).value, hull)
  }


  /** The joining half of `_computeHull`: clockwise-sort both sub-hulls,
      find the lower and the upper tangent, collect the arcs between them and
      sort the collected points. */
  method JoinHulls(left: seq<Point>, right: seq<Point>, angle: Angle, fuel: nat) returns (r: Result<seq<Point>>)
    requires left != [] && right != []
    ensures r.Ok? ==> LexSorted(r.value) && r.value != []
    ensures r.Ok? ==> multiset(r.value) <= multiset(left) + multiset(right)
    ensures r.Ok? ==> JoinedAtTangents(ClockwiseSort(left, angle).value, ClockwiseSort(right, angle).value, r.value)
    ensures r.Err? ==> r.error != IndexError
    ensures Separated(left, right) ==> r.Err? ==> r.error == OutOfFuel
  {
    var leftHull := ClockwiseSort(left, angle).value;
    var rightHull := ClockwiseSort(right, angle).value;
    var tangents := BothTangents(leftHull, rightHull, angle, fuel);
    if tangents.Err? {
      if Separated(left, right) {
        SeparatedSubMultiset(left, right, leftHull, rightHull);
      }
      return Err(tangents.error);
    }
    var (la, lb, ua, ub) := tangents.value;
    var pts := MergeArcs(leftHull, rightHull, la, lb, ua, ub);
    JoinedAtSortedTangents(left, right, angle, la, lb, ua, ub);
    r := Ok(pts);
  }

  /** Tangents found on re-sorted copies of two clockwise-sorted hulls are
      tangents of the hulls themselves, so merging the hulls between them
      joins the hulls at their tangents; the merge is sorted, non-empty and
      made of points of the two lists the hulls were sorted from. */
  lemma JoinedAtSortedTangents(left: seq<Point>, right: seq<Point>, angle: Angle, la: nat, lb: nat, ua: nat, ub: nat)
    requires left != [] && right != []
    requires la < |left| && ua < |left| && lb < |right| && ub < |right|
    requires var L, R := ClockwiseSort(left, angle).value, ClockwiseSort(right, angle).value;
      LowerSettled(ClockwiseSort(L, angle).value, ClockwiseSort(R, angle).value, la, lb) &&
      UpperSettled(ClockwiseSort(L, angle).value, ClockwiseSort(R, angle).value, ua, ub)
    ensures var L, R := ClockwiseSort(left, angle).value, ClockwiseSort(right, angle).value;
      var pts := SortLex(Arcs(L, R, la, lb, ua, ub));
      JoinedAtTangents(L, R, pts) &&
      LexSorted(pts) && pts != [] && multiset(pts) <= multiset(left) + multiset(right)
  {
    var L, R := ClockwiseSort(left, angle).value, ClockwiseSort(right, angle).value;
    ClockwiseSortIdempotent(left, angle);
    ClockwiseSortIdempotent(right, angle);
    assert |L| == |left| && |R| == |right|;
    ArcsLength(L, R, la, lb, ua, ub);
    MergedHull(L, R, la, lb, ua, ub);
    assert LowerSettled(L, R, la, lb) && UpperSettled(L, R, ua, ub);
  }

  /** Sub-hulls of the two halves of a list hold no more points than the
      list. When the list is strictly increasing in x, so are both halves,
      and the sub-hulls lie strictly apart in x. */
  lemma SubHullsOfHalves(points: seq<Point>, median: nat, left: seq<Point>, right: seq<Point>)
    requires median <= |points|
    requires multiset(left) <= multiset(points[..median]) && multiset(right) <= multiset(points[median..])
    ensures multiset(left) + multiset(right) <= multiset(points)
    ensures IncreasingX(points) ==>
      IncreasingX(points[..median]) && IncreasingX(points[median..]) && Separated(left, right)
  {
    assert points == points[..median] + points[median..];
    if IncreasingX(points) {
      SplitSeparated(points, median);
      SeparatedSubMultiset(points[..median], points[median..], left, right);
    }
  }

  /** The join at the end of `_computeHull`, read against the list the two
      sub-hulls came from: the result is sorted, non-empty, made of that
      list's points and joined at the tangents of the two sub-hulls, and a
      list strictly increasing in x can only run out of fuel. */
  method JoinSubHulls(points: seq<Point>, median: nat, left: seq<Point>, right: seq<Point>, angle: Angle, fuel: nat)
    returns (r: Result<seq<Point>>)
    requires median <= |points| && left != [] && right != []
    requires multiset(left) <= multiset(points[..median]) && multiset(right) <= multiset(points[median..])
    ensures r.Ok? ==> LexSorted(r.value) && r.value != [] && multiset(r.value) <= multiset(points)
    ensures r.Ok? ==> JoinOfHalves(points, median, angle, r.value)
    ensures r.Err? ==> r.error != IndexError
    ensures IncreasingX(points) ==> r.Err? ==> r.error == OutOfFuel
  {
    SubHullsOfHalves(points, median, left, right);
    r := JoinHulls(left, right, angle, fuel);
  }

  /** `_computeHull(points)`: lists of at most three points come back as
      they are; longer lists are split at len // 2, both halves are hulled
      recursively and the two hulls are joined. `fuel` is handed to every
      tangent walk. */
  method ComputeHullRec(points: seq<Point>, angle: Angle, fuel: nat) returns (r: Result<seq<Point>>)
    ensures |points| <= 3 ==> r == Ok(points)
    ensures r.Ok? && |points| > 3 ==> LexSorted(r.value)
    ensures r.Ok? ==> multiset(r.value) <= multiset(points)
    ensures r.Ok? ==> (r.value == [] <==> points == [])
    ensures r.Err? ==> r.error != IndexError
    ensures IncreasingX(points) ==> r.Err? ==> r.error == OutOfFuel
    decreases |points|
  {
    if |points| <= 3 {
      return Ok(points);
    }
    var median := Median(|points|);
    var leftHull := ComputeHullRec(points[..median], angle, fuel);
    if leftHull.Err? {
      return leftHull;
    }
    var rightHull := ComputeHullRec(points[median..], angle, fuel);
    if rightHull.Err? {
      return rightHull;
    }
    assert points == points[..median] + points[median..];
    if IncreasingX(points) {
      SplitSeparated(points, median);
    }
    r := JoinSubHulls(points, median, leftHull.value, rightHull.value, angle, fuel);
  }

  /** `computeHull(points)`: sorts the caller's list in place, builds the
      hull and clockwise-sorts it. For at most three points `_computeHull`
      hands back the caller's own list, so the clockwise sort reorders that
      list, and for none at all the mean divides by zero. */
  method ComputeHull(points: array<Point>, angle: Angle, fuel: nat) returns (r: Result<seq<Point>>)
    modifies points
    ensures points.Length == 0 ==> r == Err(ZeroDivision)
    ensures 1 <= points.Length <= 3 ==>
      r == ClockwiseSort(SortLex(old(points[..])), angle) && r.Ok? && points[..] == r.value
    ensures points.Length > 3 ==> points[..] == SortLex(old(points[..]))
    ensures r.Ok? ==> r.value != [] && multiset(r.value) <= multiset(old(points[..]))
    ensures r.Ok? ==> KeySorted(r.value, angle, Centroid(r.value))
    ensures points.Length > 0 && DistinctX(old(points[..])) ==> r.Ok? || r == Err(OutOfFuel)
  {
    SortInPlace(points);
    var sorted := points[..];
    if DistinctX(old(points[..])) {
      DistinctXPermutation(old(points[..]), sorted);
      SortedDistinctIncreasing(sorted);
    }
    var hull := ComputeHullRec(sorted, angle, fuel);
    if hull.Err? {
      return hull;
    }
    if points.Length <= 3 {
      r := ClockwiseSortInPlace(points, angle);
    } else {
      r := ClockwiseSort(hull.value, angle);
    }
    if r.Ok? {
      ClockwiseSorted(hull.value, angle);
    }
  }
}
