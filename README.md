# Convex hull: divide-and-conquer and gift-wrapping, modelled in Dafny

This project models the convex-hull code of a small Python repository:

- `convexhull.py`: the geometric primitives (`yint`, `triangleArea`, `cw`,
  `ccw`, `collinear`), the angular sort `clockwiseSort`, and a
  divide-and-conquer hull. `computeHull` sorts the points, `_computeHull`
  splits and recurses, and `lower_tangent`/`upper_tangent` walk two
  clockwise-sorted sub-hulls, using `tangent` and `*_tangent_good`, until a
  common tangent is found.
- `convexhull2.py`: the same primitives and a second divide-and-conquer
  hull (`computeHull`, `computeHullDC`, `LT`/`UT`, `LTChecker`/`UTChecker`).
  It also holds the gift-wrapping hull `JarvisMarch` and its `orientation`
  test.
- `test.py`: a verbatim copy of `JarvisMarch` and `orientation`
  (test.py:4-49 is the same text as convexhull2.py:265-310). It is modelled
  once, in `GiftWrap`, and some rows below cite the test.py copy.

Points are pairs of exact reals. Python's exceptions are values of
`Outcomes.Result`: `ZeroDivision` and `IndexError` stand for the two
exceptions the code can raise. The loops the source does not bound take a
`fuel` step bound and end in `OutOfFuel` when it runs out. Every fact stated
about a result holds whenever the call returns `Ok`. A list the caller can
still see after the code sorts it in place is an `array<Point>`: the
argument of `computeHull` and of `JarvisMarch`. The lists the code builds
for itself and then sorts in place (`pts.sort()`, `clockwiseSort` of
`leftHull`/`rightHull`, `cws_A`/`cws_B`, `tempA`/`tempB`, `A`/`B`,
`combine.sort()`) are fresh local lists nobody else holds, so they are
`seq<Point>` values and each sort yields the new value. A list the code only
reads is a `seq<Point>` too.

Modules, leaves first:

| file | module | models |
|---|---|---|
| outcomes.dfy | `Outcomes` | exceptions as results |
| points.dfy | `Points` | points, tuple order, `list.sort()`, `list.index()` |
| geometry.dfy | `Geometry` | `yint`, `triangleArea`, `cw`, `ccw`, `collinear`, EPSILON |
| angular_sort.dfy | `AngularSort` | `clockwiseSort` |
| merge.dfy | `Merge` | the arc-collecting merge both divide-and-conquer builders share |
| divide_conquer.dfy | `DivideConquer` | convexhull.py: `tangent`, tangent search, `_computeHull`, `computeHull` |
| divide_conquer_points.dfy | `DivideConquerPoints` | convexhull2.py: checkers, `LT`/`UT`, `computeHullDC`, `computeHull` |
| gift_wrap.dfy | `GiftWrap` | `JarvisMarch`, `orientation` |

Where a docstring and the code differ, or the code fails on inputs it
appears to accept, the model follows the code:

- The docstring of `tangent` (convexhull.py:240-241) says the intercept is
  set to `None` when the two points share an x coordinate. Line 248 divides
  by x2 − x1 before the `try`, so such points raise ZeroDivisionError and the
  `None` intercept is never produced (`DivideConquer.Tangent`). In
  convexhull2.py the checkers catch the fault of `yint` and answer True
  (`DivideConquerPoints.LTChecker`).
- convexhull.py's `computeHull` of an empty list divides by zero in
  `clockwiseSort` (`DivideConquer.ComputeHull`). convexhull2.py's
  `computeHull` of zero or one point raises IndexError at `A[-1]` or `B[0]`
  of an empty half (`DivideConquerPoints.ComputeHull`).

## Model

| member | source | states |
|---|---|---|
| `Geometry.Yint` | convexhull.py:14-23 | The intersection raises ZeroDivisionError exactly when x1 = x2 or y3 = y4; otherwise the point it returns has the x it was asked for and lies on the line through p1 and p2 (zero signed area with them). |
| `Geometry.YinterceptAtZero` | convexhull2.py:15-24 | `yint(p1, p2, 0, 1, 2)` succeeds exactly when x1 ≠ x2. It then returns (0, (x1·y2 − y1·x2)/(x1 − x2)), a point collinear with p1 and p2. |
| `Geometry.TriangleArea` | convexhull.py:34-36 | The shoelace area equals half the cross product of b − a and c − a. |
| `Geometry.AreaSymmetries` | convexhull2.py:35-37 | Swapping two corners negates the area, a cyclic rotation keeps it, and two equal corners give zero. |
| `Geometry.Cw` | convexhull.py:44-45 | `cw` holds exactly when the cross product of b − a and c − a is below 2·EPSILON, so every clockwise or collinear triple passes. |
| `Geometry.Ccw` | convexhull.py:52-53 | `ccw` holds exactly when the cross product exceeds 2·EPSILON, so it implies a strictly counter-clockwise turn. |
| `Geometry.Collinear` | convexhull.py:61-62 | `collinear` holds exactly when the cross product lies in [−2·EPSILON, 2·EPSILON], so exactly collinear triples pass. |
| `Geometry.ToleranceTests` | convexhull.py:44-62 | `cw` and `ccw` never both hold, and `ccw` excludes `collinear`. `cw` and `collinear` both hold exactly for areas in [−EPSILON, EPSILON). Every triple is `cw` or `ccw` unless its area is exactly EPSILON. |
| `Geometry.SlopeInterceptThrough` | convexhull2.py:194-197 | The line y = slope·x + inter[1], built from (b.y − a.y)/(b.x − a.x) and `yint(a, b, 0, 1, 2)`, passes through a and b. |
| `Geometry.AboveLineIffArea` | convexhull2.py:196-199 | For a line through a and b, a point is on or above it exactly when the signed area of (a, b, p) has the right sign (by the direction from a to b). The same holds for on or below. |
| `Points.SortLex` | convexhull.py:86 | `list.sort()` on pairs gives a lexicographically sorted permutation of its input. |
| `Points.SortInPlace` | convexhull2.py:89 | After the in-place sort, the caller's list holds SortLex of its old contents. |
| `Points.IndexOf` | convexhull.py:139-140 | `list.index(p)` is a valid position holding p, and p does not occur before it. |
| `Points.SplitSeparated` | convexhull.py:101-103 | Cutting a list that is strictly increasing in x puts every left-half point strictly left of every right-half point. |
| `Points.DistinctXPermutation` | convexhull.py:86 | Sorting keeps pairwise-distinct x coordinates distinct. |
| `AngularSort.ClockwiseSort` | convexhull.py:70-75 | It raises ZeroDivisionError exactly on an empty list. Otherwise it returns a permutation of its input, ordered by the angle key about the centroid. |
| `AngularSort.ClockwiseSortInPlace` | convexhull2.py:71-76 | The caller's list is replaced by the sorted order, or left alone when the mean divides by zero. |
| `AngularSort.TotalPermutation` | convexhull.py:72-73 | The coordinate sums, and so the centroid, do not depend on the order of the points. |
| `AngularSort.ClockwiseSortIdempotent` | convexhull.py:132-135 | Clockwise-sorting a clockwise-sorted copy gives the same list, so `cws_A`/`cws_B` equal the already-sorted hulls `_computeHull` passes in. |
| `AngularSort.ClockwiseSorted` | convexhull.py:88 | The clockwise-sorted hull is in key order about its own centroid, the centroid of the unsorted list. |
| `Merge.AppendRange` | convexhull.py:112-118 | Each `for i in range(lo, hi): pts.append(s[i])` loop leaves pts followed by s[lo..hi], and nothing when lo ≥ hi. |
| `Merge.MergeArcs` | convexhull.py:107-119 | The three append loops and the sort give SortLex of: left[ua..la], then right[lb..] only when ub < lb, then right[0..ub]. |
| `Merge.ArcsWithinHulls` | convexhull2.py:131-137 | The collected points form a sub-multiset of left ++ right: no position of either hull is appended twice. |
| `Merge.ArcsLength` | convexhull.py:112-118 | The merged list has max(0, la − ua + 1) + (len(right) − lb if ub < lb else 0) + ub + 1 points. |
| `Merge.MergedHull` | convexhull2.py:121-141 | The merged list is lexicographically sorted, non-empty, as long as the arcs, and a sub-multiset of the two hulls. |
| `DivideConquer.Median` | convexhull.py:101 | `len // 2` gives a left half no longer than the right half, and at most one shorter. |
| `DivideConquer.Tangent` | convexhull.py:237-253 | `tangent` raises ZeroDivisionError exactly when x1 = x2. Otherwise its intercept is never `None`. |
| `DivideConquer.TangentThrough` | convexhull.py:248-250 | The returned slope and intercept give a line through both points. |
| `DivideConquer.LowerTangentGood` | convexhull.py:167-177 | With no intercept the test passes. Otherwise it passes exactly when the lines of the given slope through both neighbours meet the y axis at or above the intercept, that is when both neighbours lie on or above y = slope·x + intercept. |
| `DivideConquer.UpperTangentGood` | convexhull.py:225-235 | The mirror test: passes with no intercept, otherwise exactly when both neighbours lie on or below the line. |
| `DivideConquer.LowerGoodIffAbove` | convexhull.py:167-177 | For the line `tangent(a, b)`, `lower_tangent_good` holds exactly when both neighbours lie on or above the line through a and b. |
| `DivideConquer.UpperGoodIffBelow` | convexhull.py:225-235 | For the line `tangent(a, b)`, `upper_tangent_good` holds exactly when both neighbours lie on or below it. |
| `DivideConquer.LowerSettledSupports` | convexhull.py:146 | When the outer loop of `lower_tangent` exits, a.x ≠ b.x and all four clockwise neighbours of a and b lie on or above line ab. |
| `DivideConquer.UpperSettledSupports` | convexhull.py:204 | When the outer loop of `upper_tangent` exits, all four neighbours lie on or below line ab. |
| `DivideConquer.WalkLowerA` | convexhull.py:147-155 | The backward walk of a ends at a valid index that passes the lower test, with the line recomputed through the new a. With A left of B it can only run out of fuel. |
| `DivideConquer.WalkLowerB` | convexhull.py:156-164 | The forward walk of b ends at a valid index that passes the lower test for the line through a and the new b. |
| `DivideConquer.WalkUpperA` | convexhull.py:205-214 | The forward walk of a ends at a valid index that passes the upper test for the line through `cws_A[i_a]` and `cws_B[i_b]`. |
| `DivideConquer.WalkUpperB` | convexhull.py:215-223 | The backward walk of b ends at a valid index that passes the upper test. |
| `DivideConquer.LowerSearch` | convexhull.py:146-165 | On return, both indices are valid and settled for the lower test. With the two hulls x-separated, the only failure is running out of fuel. |
| `DivideConquer.UpperSearch` | convexhull.py:204-224 | On return, both indices are valid and settled for the upper test. |
| `DivideConquer.LowerTangent` | convexhull.py:121-165 | IndexError exactly when A or B is empty. On return, the indices lie in [0, len) of the sorted copies and are settled. Separated inputs never divide by zero. |
| `DivideConquer.UpperTangent` | convexhull.py:179-224 | The mirror of LowerTangent for the upper tangent. |
| `DivideConquer.BothTangents` | convexhull.py:110-111 | Both tangent calls on non-empty hulls give four in-range indices, (la, lb) settled for the lower test and (ua, ub) for the upper test on the clockwise-sorted hulls. For separated hulls, the only failure is running out of fuel. |
| `DivideConquer.JoinHulls` | convexhull.py:107-120 | The merged list is sorted, non-empty, and a sub-multiset of the two sub-hulls. It is SortLex of the arcs of the clockwise-sorted hulls between some settled lower tangent (la, lb) and settled upper tangent (ua, ub), with the length the three append loops give. |
| `DivideConquer.JoinedAtSortedTangents` | convexhull.py:108-111 | Tangents settled on the re-sorted copies `cws_A`/`cws_B` of already clockwise-sorted hulls are settled on the hulls themselves, so the merge joins the hulls at their tangents. |
| `DivideConquer.SubHullsOfHalves` | convexhull.py:101-103 | Sub-hulls drawn from the two halves together hold no more points than the list. A list strictly increasing in x has strictly increasing halves and x-separated sub-hulls. |
| `DivideConquer.JoinSubHulls` | convexhull.py:107-120 | Read against the list that was split: the join is sorted, non-empty and a sub-multiset of the list, and it is the tangent join of the clockwise-sorted forms of two non-empty lists drawn from the halves at `len // 2`. A list strictly increasing in x can only run out of fuel. |
| `DivideConquer.ComputeHullRec` | convexhull.py:91-120 | Lists of at most three points come back unchanged. Longer results are lexicographically sorted. Every result is a sub-multiset of the input, and empty only for empty input. A list strictly increasing in x never raises. |
| `DivideConquer.ComputeHull` | convexhull.py:81-89 | The caller's list is sorted in place. Empty input divides by zero. For 1-3 points the caller's own list is clockwise-sorted and returned. The result is a key-ordered sub-multiset of the input. Distinct x coordinates rule out every fault except running out of fuel. |
| `DivideConquerPoints.CeilHalf` | convexhull2.py:108 | `math.ceil(n / 2)` is the least split with n ≤ 2·split. |
| `DivideConquerPoints.LTChecker` | convexhull2.py:178-202 | True when a.x = b.x. Otherwise true exactly when the points at (p ± 1) mod len lie on or above the line through a and b. |
| `DivideConquerPoints.UTChecker` | convexhull2.py:239-263 | True when a.x = b.x. Otherwise true exactly when both neighbours lie on or below that line. |
| `DivideConquerPoints.LT` | convexhull2.py:143-176 | IndexError exactly when A or B is empty. Otherwise it returns a ∈ A and b ∈ B, both passing `LTChecker` at their `index` in the sorted copies. It never divides by zero. |
| `DivideConquerPoints.UT` | convexhull2.py:204-237 | The mirror of LT with `UTChecker`. |
| `DivideConquerPoints.JoinHalves` | convexhull2.py:118-141 | IndexError exactly when A or B is empty, otherwise only running out of fuel. The result is sorted, non-empty and a sub-multiset of A ++ B. It is SortLex of the arcs of the clockwise-sorted A and B from `A.index(uta)` to `A.index(lta)` and from `B.index(ltb)` to `B.index(utb)`, for tangent points (lta, ltb) and (uta, utb) that pass `LTChecker` and `UTChecker`. |
| `DivideConquerPoints.ComputeHullDC` | convexhull2.py:96-141 | IndexError exactly when there is at most one point. The only other failure is running out of fuel. The result is lexicographically sorted, non-empty, and a sub-multiset of the input. |
| `DivideConquerPoints.ComputeHull` | convexhull2.py:83-94 | The caller's list is sorted in place. IndexError exactly for at most one point. The result is a non-empty, key-ordered sub-multiset of the input. |
| `GiftWrap.Orientation` | convexhull2.py:301-310 | Returns only 0, 1 or 2, never the initial −1: 0 for zero signed area, 1 for negative, 2 for positive. |
| `GiftWrap.OrientationSwap` | test.py:40-49 | `orientation(p, q, r) == 2` exactly when `orientation(p, r, q) == 1`, and the two are collinear together. |
| `GiftWrap.Scan` | convexhull2.py:293-296 | The scan ends on a valid index, and no later index turns counter-clockwise against it. |
| `GiftWrap.NextIndex` | convexhull2.py:293-297 | One march step from p gives a valid index q, and no position after q turns counter-clockwise (`orientation == 2`) against p and q. |
| `GiftWrap.WalkStep` | convexhull2.py:291-297 | Appending the next position, when it is not 0, keeps `hull` the trace of a walk from 0 that follows NextIndex at every step. |
| `GiftWrap.NextHullIndex` | test.py:32-35 | The for loop computes the scan from candidate (p + 1) mod n and returns a valid index. |
| `GiftWrap.March` | convexhull2.py:280-297 | Returns the points at the positions visited from 0 by repeated NextIndex until it comes back to 0. Position 0 is recorded only at the start. |
| `GiftWrap.JarvisMarch` | convexhull2.py:265-299 | Fewer than three points come back unchanged. Otherwise the caller's list is sorted in place and the march runs over it. The hull is non-empty, starts at the lexicographic minimum, and has no more points than the input. |
| `GiftWrap.WrappedDistinct` | test.py:30-36 | A march that returns visits no position twice. |
| `GiftWrap.WrappedHullPoints` | test.py:18-38 | hull[0] is points[0], the lexicographic minimum. Every hull point is an input point, and the hull is no longer than the input. |

## Left out

- The angle key of `clockwiseSort`, (atan2(dy, dx) + 2π) mod 2π, is floating-point trigonometry. It is a function parameter `angle`. The centroid and the stable sort by that key are modelled exactly.
- Floating point: coordinates are exact reals and EPSILON is exactly 2^-52. Rounding in the slope, intercept and area is not modelled.
- Termination of the tangent loops and the `while p != 0` loop of `JarvisMarch` is not guaranteed by the code (for example with repeated points). Each takes a `fuel` bound and reports `OutOfFuel` when it runs out. What a loop that never returns would do is not modelled.
- `DivideConquer.ComputeHullRec` and `DivideConquerPoints.ComputeHullDC` do not restate the tangent-join property of their last step. It is stated on the step they end with (`DivideConquer.JoinSubHulls`, `DivideConquerPoints.JoinHalves`), because assuming it for every recursive call makes their proofs too costly.
- `DivideConquer.ComputeHullRec`, `DivideConquerPoints.ComputeHullDC` and `GiftWrap.JarvisMarch` are not proved to return the convex hull (containment, convexity, agreement between the builders). The code does not establish this, and the merge restarts the right-hull walk at index 0 even when `i_ub >= i_lb`.
- `DivideConquer.LowerTangent`, `DivideConquer.UpperTangent`, `DivideConquerPoints.LT` and `DivideConquerPoints.UT` take A and B as values. Python's aliasing of those lists is not modelled. That A and B are not modified follows from the sorted copies being separate values.
- In test.py, `funct_time`, `generate_points` and `test` (timing, random points, printing) are not part of this model. The unused `tkinter` import of convexhull2.py is not part of this model either.
