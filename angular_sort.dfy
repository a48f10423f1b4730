/** `clockwiseSort`: orders points by their angle about the centroid. The
    angle itself, (atan2(dy, dx) + 2*pi) % 2*pi, is floating-point
    trigonometry and is left to a function parameter; the centroid and the
    stable sort by that key are modelled exactly. */
module AngularSort {
  import opened Outcomes
  import opened Points

  /** The key the sort uses for the offset (dy, dx) of a point from the centroid. */
  type Angle = (real, real) -> real

  function Plus(p: Point, q: Point): Point
  {
    Point(p.x + q.x, p.y + q.y)
  }

  /** The coordinate-wise sum `sum(p[0] for p in s)`, `sum(p[1] for p in s)`. */
  function Total(s: seq<Point>): Point
  {
    if s == [] then Point(0.0, 0.0) else Plus(s[0], Total(s[1..]))
  }

  /** The mean point (xavg, yavg) of a non-empty list. */
  function Centroid(s: seq<Point>): Point
    requires s != []
  {
    Point(Total(s).x / |s| as real, Total(s).y / |s| as real)
  }

  function Key(angle: Angle, c: Point, p: Point): real
  {
    angle(p.y - c.y, p.x - c.x)
  }

  predicate KeySorted(s: seq<Point>, angle: Angle, c: Point)
  {
    forall i, j :: 0 <= i < j < |s| ==> Key(angle, c, s[i]) <= Key(angle, c, s[j])
  }

  /** A point whose key does not exceed the first key of a sorted list can
      go in front of it. */
  lemma KeySortedCons(p: Point, s: seq<Point>, angle: Angle, c: Point)
    requires KeySorted(s, angle, c)
    requires s == [] || Key(angle, c, p) <= Key(angle, c, s[0])
    ensures KeySorted([p] + s, angle, c)
  {
    var r := [p] + s;
    forall i, j | 0 <= i < j < |r|
      ensures Key(angle, c, r[i]) <= Key(angle, c, r[j])
    {
      if i == 0 {
        assert r[j] == s[j - 1];
      } else {
        assert r[i] == s[i - 1] && r[j] == s[j - 1];
      }
    }
  }

  /** Puts `p` before the first element whose key is not below its own, so
      that points with equal keys keep their relative order. */
  function InsertByKey(p: Point, s: seq<Point>, angle: Angle, c: Point): (r: seq<Point>)
    requires KeySorted(s, angle, c)
    ensures |r| == |s| + 1 && (r[0] == p || (s != [] && r[0] == s[0]))
    ensures KeySorted(r, angle, c)
    ensures multiset(r) == multiset(s) + multiset{p}
  {
    if s == [] || Key(angle, c, p) <= Key(angle, c, s[0]) then
      KeySortedCons(p, s, angle, c);
      assert multiset([p] + s) == multiset{p} + multiset(s);
      [p] + s
    else
      var rest := InsertByKey(p, s[1..], angle, c);
      assert s[1..] != [] ==> Key(angle, c, s[0]) <= Key(angle, c, s[1..][0]);
      KeySortedCons(s[0], rest, angle, c);
      MultisetConsHead(s, rest, p);
      [s[0]] + rest
  }

  /** Python's stable `list.sort(key = ...)`, as insertion sort. */
  function SortByKey(s: seq<Point>, angle: Angle, c: Point): (r: seq<Point>)
    ensures KeySorted(r, angle, c)
    ensures multiset(r) == multiset(s)
  {
    if s == [] then
      []
    else
      assert s == [s[0]] + s[1..];
      InsertByKey(s[0], SortByKey(s[1..], angle, c), angle, c)
  }

  /** `clockwiseSort(points)`: the mean of an empty list divides by zero. */
  function ClockwiseSort(s: seq<Point>, angle: Angle): (r: Result<seq<Point>>)
    ensures r.Err? <==> s == []
    ensures r.Err? ==> r.error == ZeroDivision
    ensures r.Ok? ==> |r.value| == |s|
    ensures r.Ok? ==> multiset(r.value) == multiset(s) && KeySorted(r.value, angle, Centroid(s))
  {
    assert s != [] ==> |SortByKey(s, angle, Centroid(s))| == |multiset(SortByKey(s, angle, Centroid(s)))| == |s|;
    if s == [] then Err(ZeroDivision) else Ok(SortByKey(s, angle, Centroid(s)))
  }

  /** `clockwiseSort` applied to the caller's list, which it reorders in place. */
  method ClockwiseSortInPlace(a: array<Point>, angle: Angle) returns (r: Result<seq<Point>>)
    modifies a
    ensures r == ClockwiseSort(old(a[..]), angle)
    ensures r.Ok? ==> a[..] == r.value
    ensures r.Err? ==> a[..] == old(a[..])
  {
    r := ClockwiseSort(a[..], angle);
    if r.Ok? {
      var sorted := r.value;
      assert |sorted| == |multiset(sorted)| == |multiset(a[..])| == a.Length;
      forall i | 0 <= i < a.Length {
        a[i] := sorted[i];
      }
    }
  }

  lemma {:induction false} TotalAppend(s: seq<Point>, t: seq<Point>)
    ensures Total(s + t) == Plus(Total(s), Total(t))
  {
    if s == [] {
      assert s + t == t;
    } else {
      var st := s + t;
      assert st != [] && st[0] == s[0];
      assert st[1..] == s[1..] + t;
      TotalAppend(s[1..], t);
      assert Total(st) == Plus(s[0], Total(s[1..] + t));
      assert Total(s) == Plus(s[0], Total(s[1..]));
    }
  }

  /** Taking the point at k out of a list takes it out of the sums. */
  lemma TotalRemove(t: seq<Point>, k: nat)
    requires k < |t|
    ensures Total(t) == Plus(t[k], Total(t[..k] + t[k + 1..]))
  {
    var front, back := t[..k], t[k + 1..];
    var tail := [t[k]] + back;
    assert t == front + tail;
    TotalAppend(front, tail);
    assert Total(tail) == Plus(t[k], Total(back)) by {
      assert tail[0] == t[k] && tail[1..] == back;
    }
    TotalAppend(front, back);
  }

  /** The sums, hence the centroid, depend only on which points occur. */
  lemma {:induction false} TotalPermutation(s: seq<Point>, t: seq<Point>)
    requires multiset(s) == multiset(t)
    ensures Total(s) == Total(t)
  {
    if s == [] {
      assert t == [];
    } else {
      assert s == [s[0]] + s[1..];
      assert s[0] in multiset(t);
      var k := IndexOf(t, s[0]);
      var rest := t[..k] + t[k + 1..];
      assert t == t[..k] + [t[k]] + t[k + 1..];
      assert multiset(t) == multiset(t[..k]) + multiset{t[k]} + multiset(t[k + 1..]);
      assert multiset(rest) == multiset(t[..k]) + multiset(t[k + 1..]);
      assert multiset(s) == multiset{s[0]} + multiset(s[1..]);
      assert t[k] == s[0];
      assert multiset(rest) == multiset(t) - multiset{s[0]};
      assert multiset(s[1..]) == multiset(s) - multiset{s[0]};
      TotalPermutation(s[1..], rest);
      TotalRemove(t, k);
    }
  }

  /** Sorting a list that is already in key order leaves it unchanged. */
  lemma {:induction false} SortByKeyOfSorted(s: seq<Point>, angle: Angle, c: Point)
    requires KeySorted(s, angle, c)
    ensures SortByKey(s, angle, c) == s
  {
    if s != [] {
      SortByKeyOfSorted(s[1..], angle, c);
      assert s == [s[0]] + s[1..];
    }
  }

  /** Re-sorting a clockwise-sorted list gives the same list: the centroid of
      a reordering is the same point, and a stable sort of a sorted list is
      the identity. */
  lemma ClockwiseSortIdempotent(s: seq<Point>, angle: Angle)
    requires s != []
    ensures ClockwiseSort(ClockwiseSort(s, angle).value, angle) == ClockwiseSort(s, angle)
  {
    var c := Centroid(s);
    var once := SortByKey(s, angle, c);
    assert ClockwiseSort(s, angle) == Ok(once);
    assert |once| == |multiset(once)| == |s|;
    TotalPermutation(once, s);
    assert Centroid(once) == c;
    SortByKeyOfSorted(once, angle, c);
    assert ClockwiseSort(once, angle) == Ok(SortByKey(once, angle, c));
  }

  /** A clockwise-sorted list is in key order about its own centroid, which
      is the centroid of the list it was sorted from. */
  lemma ClockwiseSorted(s: seq<Point>, angle: Angle)
    requires s != []
    ensures var r := ClockwiseSort(s, angle).value;
      r != [] && Centroid(r) == Centroid(s) && KeySorted(r, angle, Centroid(r))
  {
    var r := ClockwiseSort(s, angle).value;
    assert |r| == |multiset(r)| == |s|;
    TotalPermutation(r, s);
  }
}
