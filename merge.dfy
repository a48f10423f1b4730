/** The merge step of both divide-and-conquer hull builders: the walk along
    the left hull from its upper- to its lower-tangent index, then along the
    right hull from its lower-tangent index (to the end of the list, only when
    that index is past the upper-tangent index) and from index 0 to its
    upper-tangent index, collected into a list that is then sorted. */
module Merge {
  import opened Points

  /** `[s[i] for i in range(lo, hi)]`: empty when lo >= hi. */
  function Span(s: seq<Point>, lo: nat, hi: nat): seq<Point>
    requires hi <= |s|
  {
    if lo < hi then s[lo..hi] else []
  }

  /** The points the merge collects, in the order it appends them: left
      indices ua..la, then right indices lb..end when ub < lb, then right
      indices 0..ub. */
  function Arcs(left: seq<Point>, right: seq<Point>, la: nat, lb: nat, ua: nat, ub: nat): seq<Point>
    requires la < |left| && ua < |left| && lb < |right| && ub < |right|
  {
    Span(left, ua, la + 1) + (if ub < lb then right[lb..] else []) + right[..ub + 1]
  }

  /** `for i in range(lo, hi): pts.append(s[i])`. */
  method AppendRange(pts: seq<Point>, s: seq<Point>, lo: nat, hi: nat) returns (out: seq<Point>)
    requires hi <= |s|
    ensures out == pts + Span(s, lo, hi)
  {
    out := pts;
    var i := lo;
    while i < hi
      invariant lo < hi ==> lo <= i <= hi && out == pts + s[lo..i]
      invariant lo >= hi ==> i == lo && out == pts
    {
      assert s[lo..i + 1] == s[lo..i] + [s[i]];
      out := out + [s[i]];
      i := i + 1;
    }
  }

  /** Collects the arcs with three append loops and sorts the result. */
  method MergeArcs(left: seq<Point>, right: seq<Point>, la: nat, lb: nat, ua: nat, ub: nat)
    returns (pts: seq<Point>)
    requires la < |left| && ua < |left| && lb < |right| && ub < |right|
    ensures pts == SortLex(Arcs(left, right, la, lb, ua, ub))
  {
    pts := AppendRange([], left, ua, la + 1);
    if ub < lb {
      pts := AppendRange(pts, right, lb, |right|);
    }
    pts := AppendRange(pts, right, 0, ub + 1);
    assert pts == Arcs(left, right, la, lb, ua, ub);
    pts := SortLex(pts);
  }

  /** A slice holds no more of any point than the whole list. */
  lemma SliceWithin(s: seq<Point>, lo: nat, hi: nat)
    requires lo <= hi <= |s|
    ensures multiset(s[lo..hi]) <= multiset(s)
  {
    assert s == s[..lo] + s[lo..hi] + s[hi..];
  }

  /** A prefix and a suffix that do not overlap hold no more of any point
      than the whole list. */
  lemma EndsWithin(s: seq<Point>, lo: nat, hi: nat)
    requires lo <= hi <= |s|
    ensures multiset(s[..lo]) + multiset(s[hi..]) <= multiset(s)
  {
    assert s == s[..lo] + s[lo..hi] + s[hi..];
  }

  /** Every point the merge keeps comes from one of the two hulls, and no
      position of either hull is taken twice: the two right-hull ranges are
      disjoint. */
  lemma ArcsWithinHulls(left: seq<Point>, right: seq<Point>, la: nat, lb: nat, ua: nat, ub: nat)
    requires la < |left| && ua < |left| && lb < |right| && ub < |right|
    ensures multiset(Arcs(left, right, la, lb, ua, ub)) <= multiset(left) + multiset(right)
  {
    var span := Span(left, ua, la + 1);
    var head := right[..ub + 1];
    assert multiset(span) <= multiset(left) by {
      if ua < la + 1 {
        SliceWithin(left, ua, la + 1);
      }
    }
    if ub < lb {
      var tail := right[lb..];
      EndsWithin(right, ub + 1, lb);
      assert Arcs(left, right, la, lb, ua, ub) == span + tail + head;
      AddWithin(multiset(span), multiset(tail), multiset(head), multiset(left), multiset(right));
    } else {
      SliceWithin(right, 0, ub + 1);
      assert Arcs(left, right, la, lb, ua, ub) == span + head;
    }
  }

  lemma AddWithin(a: multiset<Point>, b: multiset<Point>, c: multiset<Point>, l: multiset<Point>, r: multiset<Point>)
    requires a <= l && b + c <= r
    ensures a + b + c <= l + r
  {
  }

  /** The size of the merged list:
      max(0, la - ua + 1) + (|right| - lb if ub < lb else 0) + ub + 1. */
  lemma ArcsLength(left: seq<Point>, right: seq<Point>, la: nat, lb: nat, ua: nat, ub: nat)
    requires la < |left| && ua < |left| && lb < |right| && ub < |right|
    ensures |Arcs(left, right, la, lb, ua, ub)| ==
      (if ua <= la then la - ua + 1 else 0) + (if ub < lb then |right| - lb else 0) + ub + 1
  {
  }

  /** What the merge returns: sorted, made of hull points only, as long as
      the arcs, and never empty. */
  lemma MergedHull(left: seq<Point>, right: seq<Point>, la: nat, lb: nat, ua: nat, ub: nat)
    requires la < |left| && ua < |left| && lb < |right| && ub < |right|
    ensures var pts := SortLex(Arcs(left, right, la, lb, ua, ub));
      LexSorted(pts) && multiset(pts) <= multiset(left) + multiset(right) &&
      |pts| == |Arcs(left, right, la, lb, ua, ub)| && pts != []
  {
    var arcs := Arcs(left, right, la, lb, ua, ub);
    ArcsWithinHulls(left, right, la, lb, ua, ub);
    assert |SortLex(arcs)| == |multiset(SortLex(arcs))| == |multiset(arcs)| == |arcs|;
  }
}
