/** Points, Python's tuple order on them, `list.sort()` and `list.index()`. */
module Points {

  /** A point (x, y); Python tuples of two numbers, here exact reals. */
  datatype Point = Point(x: real, y: real)

  /** Python's comparison of two tuples: by x, ties broken by y. */
  predicate LexLe(p: Point, q: Point)
  {
    p.x < q.x || (p.x == q.x && p.y <= q.y)
  }

  predicate LexSorted(s: seq<Point>)
  {
    forall i, j :: 0 <= i < j < |s| ==> LexLe(s[i], s[j])
  }

  /** Every point of `s` has a smaller x than every point of `t`. */
  predicate Separated(s: seq<Point>, t: seq<Point>)
  {
    forall p, q :: p in s && q in t ==> p.x < q.x
  }

  /** No two positions of `s` hold points with the same x coordinate. */
  predicate DistinctX(s: seq<Point>)
  {
    forall i, j :: 0 <= i < j < |s| ==> s[i].x != s[j].x
  }

  predicate IncreasingX(s: seq<Point>)
  {
    forall i, j :: 0 <= i < j < |s| ==> s[i].x < s[j].x
  }

  /** A point not above the first point of a sorted list can go in front of it. */
  lemma LexSortedCons(p: Point, s: seq<Point>)
    requires LexSorted(s)
    requires s == [] || LexLe(p, s[0])
    ensures LexSorted([p] + s)
  {
    var r := [p] + s;
    forall i, j | 0 <= i < j < |r|
      ensures LexLe(r[i], r[j])
    {
      if i == 0 {
        assert r[j] == s[j - 1];
      } else {
        assert r[i] == s[i - 1] && r[j] == s[j - 1];
      }
    }
  }

  /** Putting the head of `s` back in front of a list that holds the rest
      of `s` and `p` gives a list that holds `s` and `p`. */
  lemma MultisetConsHead(s: seq<Point>, t: seq<Point>, p: Point)
    requires s != [] && multiset(t) == multiset(s[1..]) + multiset{p}
    ensures multiset([s[0]] + t) == multiset(s) + multiset{p}
  {
    assert s == [s[0]] + s[1..];
    assert multiset([s[0]] + t) == multiset{s[0]} + multiset(t);
  }

  /** Inserts `p` into a sorted list before the first element it does not exceed. */
  function Insert(p: Point, s: seq<Point>): (r: seq<Point>)
    requires LexSorted(s)
    ensures |r| == |s| + 1 && (r[0] == p || (s != [] && r[0] == s[0]))
    ensures LexSorted(r)
    ensures multiset(r) == multiset(s) + multiset{p}
  {
    if s == [] || LexLe(p, s[0]) then
      LexSortedCons(p, s);
      assert multiset([p] + s) == multiset{p} + multiset(s);
      [p] + s
    else
      var rest := Insert(p, s[1..]);
      assert s[1..] != [] ==> LexLe(s[0], s[1..][0]);
      LexSortedCons(s[0], rest);
      MultisetConsHead(s, rest, p);
      [s[0]] + rest
  }

  /** The list that Python's `list.sort()` leaves behind for a list of pairs
      (insertion sort as the reference definition). */
  function SortLex(s: seq<Point>): (r: seq<Point>)
    ensures LexSorted(r)
    ensures multiset(r) == multiset(s)
  {
    if s == [] then
      []
    else
      assert s == [s[0]] + s[1..];
      Insert(s[0], SortLex(s[1..]))
  }

  /** `a.sort()` on the caller's list: the list is reordered in place. */
  method SortInPlace(a: array<Point>)
    modifies a
    ensures a[..] == SortLex(old(a[..]))
  {
    var sorted := SortLex(a[..]);
    assert |sorted| == |multiset(sorted)| == |multiset(a[..])| == a.Length;
    forall i | 0 <= i < a.Length {
      a[i] := sorted[i];
    }
  }

  /** `s.index(p)`: the position of the first occurrence of `p`. */
  function IndexOf(s: seq<Point>, p: Point): (i: nat)
    requires p in s
    ensures i < |s| && s[i] == p
    ensures p !in s[..i]
  {
    if s[0] == p then 0 else
      var k := IndexOf(s[1..], p);
      assert s[..k + 1] == [s[0]] + s[1..][..k];
      k + 1
  }

  /** Two positions holding the same point give that point a count of at least two. */
  lemma {:induction false} TwoPositions(s: seq<Point>, i: nat, j: nat)
    requires i < j < |s| && s[i] == s[j]
    ensures multiset(s)[s[i]] >= 2
  {
    assert s == s[..i] + [s[i]] + s[i + 1..j] + [s[j]] + s[j + 1..];
  }

  /** A point counted twice occupies two positions. */
  lemma {:induction false} CountTwo(s: seq<Point>, v: Point) returns (i: nat, j: nat)
    requires multiset(s)[v] >= 2
    ensures i < j < |s| && s[i] == v && s[j] == v
  {
    assert s == [s[0]] + s[1..];
    if s[0] == v {
      assert v in multiset(s[1..]);
      i := 0;
      var k := IndexOf(s[1..], v);
      j := k + 1;
    } else {
      var i', j' := CountTwo(s[1..], v);
      i, j := i' + 1, j' + 1;
    }
  }

  /** Pairwise distinct x coordinates depend only on the multiset of points. */
  lemma DistinctXPermutation(s: seq<Point>, t: seq<Point>)
    requires multiset(s) == multiset(t)
    requires DistinctX(s)
    ensures DistinctX(t)
  {
    forall i, j | 0 <= i < j < |t|
      ensures t[i].x != t[j].x
    {
      if t[i].x == t[j].x {
        assert t[i] in multiset(s) && t[j] in multiset(s);
        if t[i] == t[j] {
          TwoPositions(t, i, j);
          var i', j' := CountTwo(s, t[i]);
        }
      }
    }
  }

  /** A sorted list without repeated x coordinates is strictly increasing in x. */
  lemma SortedDistinctIncreasing(s: seq<Point>)
    requires LexSorted(s) && DistinctX(s)
    ensures IncreasingX(s)
  {
  }

  /** Slicing a list strictly increasing in x at `k` separates the halves. */
  lemma {:induction false} SplitSeparated(s: seq<Point>, k: nat)
    requires k <= |s| && IncreasingX(s)
    ensures Separated(s[..k], s[k..])
    ensures IncreasingX(s[..k]) && IncreasingX(s[k..])
  {
    forall p, q | p in s[..k] && q in s[k..]
      ensures p.x < q.x
    {
      var i :| 0 <= i < k && s[..k][i] == p;
      var j :| 0 <= j < |s| - k && s[k..][j] == q;
      assert s[i] == p && s[k + j] == q;
    }
  }

  /** Separation only depends on which points occur. */
  lemma SeparatedSubMultiset(s: seq<Point>, t: seq<Point>, s': seq<Point>, t': seq<Point>)
    requires Separated(s, t)
    requires multiset(s') <= multiset(s) && multiset(t') <= multiset(t)
    ensures Separated(s', t')
  {
    forall p, q | p in s' && q in t'
      ensures p.x < q.x
    {
      assert p in multiset(s') && q in multiset(t');
      assert p in s && q in t;
    }
  }
}
