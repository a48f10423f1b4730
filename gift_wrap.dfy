/** The gift-wrapping (Jarvis march) hull, `JarvisMarch` and `orientation`,
    which convexhull2.py and test.py both define with identical text. */
module GiftWrap {
  import opened Outcomes
  import opened Points
  import opened Geometry

  /** `orientation(p, q, r)`: 0 when the three points are collinear, 1 when
      they turn clockwise and 2 when they turn counter-clockwise, read off
      the sign of val = -2 * triangleArea(p, q, r). The initial -1 of the
      source survives only if val is none of zero, positive or negative. */
  function Orientation(p: Point, q: Point, r: Point): (ans: int)
    ensures ans == 0 || ans == 1 || ans == 2
    ensures ans == 0 <==> TriangleArea(p, q, r) == 0.0
    ensures ans == 1 <==> TriangleArea(p, q, r) < 0.0
    ensures ans == 2 <==> TriangleArea(p, q, r) > 0.0
  {
    var val := (q.y - p.y) * (r.x - q.x) - (q.x - p.x) * (r.y - q.y);
    assert val == -2.0 * TriangleArea(p, q, r);
    if val < 0.0 then 2
    else if val > 0.0 then 1
    else if val == 0.0 then 0
    else -1
  }

  /** Swapping the last two points turns a counter-clockwise answer into a
      clockwise one and back. */
  lemma OrientationSwap(p: Point, q: Point, r: Point)
    ensures Orientation(p, q, r) == 2 <==> Orientation(p, r, q) == 1
    ensures Orientation(p, q, r) == 0 <==> Orientation(p, r, q) == 0
  {
    AreaSymmetries(p, q, r);
  }

  /** The `for i in range(len(points))` scan of the march from position i on,
      with current candidate q: q moves to i whenever p, points[i], points[q]
      turn counter-clockwise. The candidate it ends with is a valid index,
      and no later position turns counter-clockwise against it. */
  function Scan(pts: seq<Point>, p: nat, q: nat, i: nat): (next: nat)
    requires p < |pts| && q < |pts| && i <= |pts|
    ensures next < |pts|
    ensures next == q || i <= next
    ensures forall j :: i <= j < |pts| && next < j ==> Orientation(pts[p], pts[j], pts[next]) != 2
    decreases |pts| - i
  {
    if i == |pts| then q
    else Scan(pts, p, if Orientation(pts[p], pts[i], pts[q]) == 2 then i else q, i + 1)
  }

  /** The index the march goes to from p: the scan from candidate (p + 1) % n.
      It is a valid index, and no later position turns counter-clockwise
      against it. */
  function NextIndex(pts: seq<Point>, p: nat): (next: nat)
    requires p < |pts|
    ensures next < |pts|
    ensures forall j :: next < j < |pts| ==> Orientation(pts[p], pts[j], pts[next]) != 2
  {
    Scan(pts, p, (p + 1) % |pts|, 0)
  }

  /** The candidate search of one march step, as the source's for loop. */
  method NextHullIndex(points: array<Point>, p: nat) returns (q: nat)
    requires p < points.Length
    ensures q == NextIndex(points[..], p)
    ensures q < points.Length
    ensures forall j :: q < j < points.Length ==> Orientation(points[p], points[j], points[q]) != 2
  {
    q := (p + 1) % points.Length;
    for i := 0 to points.Length
      invariant q < points.Length
      invariant Scan(points[..], p, q, i) == NextIndex(points[..], p)
    {
      if Orientation(points[p], points[i], points[q]) == 2 {
        q := i;
      }
    }
  }

  /** The positions a march has visited so far, in order: it starts at 0,
      each next position is NextIndex of the one before, and none after the
      first is 0. */
  ghost predicate Walked(pts: seq<Point>, visited: seq<nat>)
  {
    |visited| > 0 && visited[0] == 0 &&
    (forall k :: 0 <= k < |visited| ==> visited[k] < |pts|) &&
    (forall k :: 0 < k < |visited| ==> visited[k] != 0) &&
    (forall k :: 0 <= k < |visited| - 1 ==> visited[k + 1] == NextIndex(pts, visited[k]))
  }

  /** A complete march: the step after the last visited position returns to 0. */
  ghost predicate Wrapped(pts: seq<Point>, visited: seq<nat>)
  {
    Walked(pts, visited) && NextIndex(pts, visited[|visited| - 1]) == 0
  }

  /** `hull` lists the points at the positions `visited`. */
  ghost predicate Traces(pts: seq<Point>, visited: seq<nat>, hull: seq<Point>)
  {
    |hull| == |visited| &&
    forall k :: 0 <= k < |visited| ==> visited[k] < |pts| && hull[k] == pts[visited[k]]
  }

  /** Recording the next position, when it is not 0, extends a walk and
      its trace by one step. */
  lemma WalkStep(pts: seq<Point>, visited: seq<nat>, hull: seq<Point>, p: nat)
    requires Walked(pts, visited) && Traces(pts, visited, hull)
    requires p < |pts| && p != 0 && p == NextIndex(pts, visited[|visited| - 1])
    ensures Walked(pts, visited + [p]) && Traces(pts, visited + [p], hull + [pts[p]])
  {
    var v := visited + [p];
    assert forall k :: 0 <= k < |visited| ==> v[k] == visited[k];
  }

  /** The march proper, on a list already sorted: start at index 0, record
      it, and keep moving to NextHullIndex, recording each position until
      the march is back at 0. `fuel` bounds the iterations of the
      `while p != 0` loop, which the source does not bound. */
  method March(points: array<Point>, fuel: nat) returns (r: Result<seq<Point>>, ghost visited: seq<nat>)
    requires points.Length > 0
    ensures r.Err? ==> r.error == OutOfFuel
    ensures r.Ok? ==> Wrapped(points[..], visited) && Traces(points[..], visited, r.value)
  {
    var p := 0;
    var hull := [points[p]];
    visited := [p];
    var q := NextHullIndex(points, p);
    p := q;
    var steps := fuel;
    while p != 0
      invariant Walked(points[..], visited) && Traces(points[..], visited, hull)
      invariant p < points.Length && p == NextIndex(points[..], visited[|visited| - 1])
      decreases steps
    {
      if steps == 0 {
        return Err(OutOfFuel), visited;
      }
      steps := steps - 1;
      WalkStep(points[..], visited, hull, p);
      hull := hull + [points[p]];
      visited := visited + [p];
      q := NextHullIndex(points, p);
      p := q;
    }
    r := Ok(hull);
  }

  /** `JarvisMarch(points)`: fewer than three points come back as they are;
      otherwise the caller's list is sorted in place and marched around. */
  method JarvisMarch(points: array<Point>, fuel: nat) returns (r: Result<seq<Point>>, ghost visited: seq<nat>)
    modifies points
    ensures points.Length < 3 ==> r == Ok(old(points[..])) && points[..] == old(points[..])
    ensures points.Length >= 3 ==> points[..] == SortLex(old(points[..]))
    ensures r.Err? ==> r.error == OutOfFuel
    ensures r.Ok? && points.Length >= 3 ==> Wrapped(points[..], visited) && Traces(points[..], visited, r.value)
    ensures r.Ok? && points.Length >= 3 ==>
      r.value != [] && |r.value| <= points.Length && forall j :: 0 <= j < points.Length ==> LexLe(r.value[0], points[j])
  {
    visited := [];
    if points.Length < 3 {
      return Ok(points[..]), visited;
    }
    SortInPlace(points);
    r, visited := March(points, fuel);
    if r.Ok? {
      WrappedHullPoints(points[..], visited, r.value);
    }
  }

  /** The successor table of the march: entry v is NextIndex(pts, v). */
  ghost function Successors(pts: seq<Point>): (succ: seq<nat>)
    ensures |succ| == |pts|
    ensures forall v :: 0 <= v < |pts| ==> succ[v] == NextIndex(pts, v) && succ[v] < |pts|
  {
    seq(|pts|, v requires 0 <= v < |pts| => NextIndex(pts, v))
  }

  /** Every entry of a successor table is an index of the table. */
  ghost predicate Closed(succ: seq<nat>)
  {
    forall v :: 0 <= v < |succ| ==> succ[v] < |succ|
  }

  /** Position v after s steps along the successor table. */
  ghost function Advance(succ: seq<nat>, v: nat, s: nat): (w: nat)
    requires Closed(succ) && v < |succ|
    ensures w < |succ|
    decreases s
  {
    if s == 0 then v else Advance(succ, succ[v], s - 1)
  }

  /** a + b steps are a steps followed by b steps. */
  lemma {:induction false} AdvanceAdd(succ: seq<nat>, v: nat, a: nat, b: nat)
    requires Closed(succ) && v < |succ|
    ensures Advance(succ, v, a + b) == Advance(succ, Advance(succ, v, a), b)
    decreases a
  {
    if a > 0 {
      AdvanceAdd(succ, succ[v], a - 1, b);
    }
  }

  /** `visited` starts at 0, follows the table, does not come back to 0
      before its end, and the step after its last entry is 0. */
  ghost predicate Cycle(succ: seq<nat>, visited: seq<nat>)
  {
    |visited| > 0 && visited[0] == 0 &&
    (forall k :: 0 <= k < |visited| ==> visited[k] < |succ|) &&
    (forall k :: 0 < k < |visited| ==> visited[k] != 0) &&
    (forall k :: 0 <= k < |visited| - 1 ==> visited[k + 1] == succ[visited[k]]) &&
    succ[visited[|visited| - 1]] == 0
  }

  /** From the m-th entry of a cycle, s steps reach the (m + s)-th one, or 0
      when that is one past the last. */
  lemma {:induction false} AdvanceAlong(succ: seq<nat>, visited: seq<nat>, m: nat, s: nat)
    requires Closed(succ) && Cycle(succ, visited)
    requires m < |visited| && m + s <= |visited|
    ensures Advance(succ, visited[m], s) == if m + s < |visited| then visited[m + s] else 0
    decreases s
  {
    if s > 0 {
      if m + 1 < |visited| {
        AdvanceAlong(succ, visited, m + 1, s - 1);
      } else {
        assert Advance(succ, visited[m], s) == Advance(succ, 0, 0);
      }
    }
  }

  /** A cycle never repeats an entry: from the i-th entry the table first
      returns to 0 after |visited| - i steps, so two entries with different
      i are different. */
  lemma CycleDistinct(succ: seq<nat>, visited: seq<nat>)
    requires Closed(succ) && Cycle(succ, visited)
    ensures forall i, j :: 0 <= i < j < |visited| ==> visited[i] != visited[j]
  {
    var n := |visited|;
    forall i, j | 0 <= i < j < n
      ensures visited[i] != visited[j]
    {
      AdvanceAlong(succ, visited, i, n - i);
      AdvanceAlong(succ, visited, j, n - j);
      AdvanceAdd(succ, visited[j], n - j, j - i);
      AdvanceAlong(succ, visited, 0, j - i);
    }
  }

  /** A march that returned to 0 never visits a position twice. */
  lemma WrappedDistinct(pts: seq<Point>, visited: seq<nat>)
    requires Wrapped(pts, visited)
    ensures forall i, j :: 0 <= i < j < |visited| ==> visited[i] != visited[j]
  {
    var succ := Successors(pts);
    assert Closed(succ);
    assert Cycle(succ, visited);
    CycleDistinct(succ, visited);
  }

  /** A list of pairwise distinct indices below n has at most n entries. */
  lemma {:induction false} DistinctBelow(vs: seq<nat>, n: nat)
    requires forall k :: 0 <= k < |vs| ==> vs[k] < n
    requires forall i, j :: 0 <= i < j < |vs| ==> vs[i] != vs[j]
    ensures |vs| <= n
    decreases n
  {
    if vs != [] {
      assert vs[0] < n;
      if k :| 0 <= k < |vs| && vs[k] == n - 1 {
        var rest := vs[..k] + vs[k + 1..];
        assert forall m :: 0 <= m < |rest| ==> rest[m] == (if m < k then vs[m] else vs[m + 1]);
        DistinctBelow(rest, n - 1);
      } else {
        DistinctBelow(vs, n - 1);
      }
    }
  }

  /** What a march that returned hands back: the lexicographically smallest
      point first, then points of the input only, no more of them than the
      input holds. */
  lemma WrappedHullPoints(pts: seq<Point>, visited: seq<nat>, hull: seq<Point>)
    requires LexSorted(pts)
    requires Wrapped(pts, visited) && Traces(pts, visited, hull)
    ensures hull != [] && hull[0] == pts[0]
    ensures forall j :: 0 <= j < |pts| ==> LexLe(hull[0], pts[j])
    ensures forall k :: 0 <= k < |hull| ==> hull[k] in pts
    ensures |hull| <= |pts|
  {
    forall k | 0 <= k < |hull|
      ensures hull[k] in pts
    {
      assert hull[k] == pts[visited[k]];
    }
    WrappedDistinct(pts, visited);
    DistinctBelow(visited, |pts|);
  }
}
