/**
 Schematic wires (backend/design_kernel/model.py:706-746, 1063-1090): the self-intersection
 check of one wire, the touch check between two wires, and what both mean over the reals.
 */
module Wiring {
  import opened Geometry
  import opened Ring
  import opened Polygon

  type Path = seq<Point>

  predicate SegmentsMeet(v: Path, i: nat, j: nat)
    requires i + 1 < |v| && j + 1 < |v|
  {
    SegmentsIntersect(v[i], v[i + 1], v[j], v[j + 1])
  }

  /** Paths the wire constructor accepts: neighbouring segments are never compared. */
  predicate AcceptedPath(v: Path) {
    && |v| >= 2
    && NoRepeat(v)
    && forall i, j :: 0 <= i && i + 2 <= j && j + 1 < |v| ==> !SegmentsMeet(v, i, j)
  }

  method ValidatePath(v: Path) returns (ok: bool)
    ensures ok <==> AcceptedPath(v)
  {
    if |v| < 2 {
      return false;
    }
    for k := 0 to |v| - 1
      invariant forall i :: 0 <= i < k ==> v[i] != v[i + 1]
    {
      if v[k] == v[k + 1] {
        return false;
      }
    }
    var repeated := HasRepeat(v);
    if repeated {
      return false;
    }
    for first := 0 to |v| - 1
      invariant forall i, j :: 0 <= i < first && i + 2 <= j && j + 1 < |v| ==> !SegmentsMeet(v, i, j)
    {
      var second := first + 2;
      while second + 1 < |v|
        invariant first + 2 <= second
        invariant forall j :: first + 2 <= j < second && j + 1 < |v| ==> !SegmentsMeet(v, first, j)
      {
        if SegmentsMeet(v, first, second) {
          return false;
        }
        second := second + 1;
      }
    }
    return true;
  }

  // ---------- What acceptance of one path means ----------

  ghost predicate OnBothSegments(p: RealPoint, v: Path, i: nat, j: nat)
    requires i + 1 < |v| && j + 1 < |v|
  {
    Shared(p, v[i], v[i + 1], v[j], v[j + 1])
  }

  /** No two segments share a point, except neighbours, which share just their common vertex. */
  ghost predicate TrulySimplePath(v: Path) {
    forall i, j, p :: 0 <= i < j && j + 1 < |v| && OnBothSegments(p, v, i, j) ==> j == i + 1 && p == Real(v[j])
  }

  /** The path does not fold back onto its second, or its last but one, segment. */
  predicate EndsClear(v: Path) {
    |v| < 3 || (!PointOnSegment(v[|v| - 1], v[|v| - 3], v[|v| - 2]) && !PointOnSegment(v[0], v[1], v[2]))
  }

  lemma FarSegmentsShareNothing(v: Path, i: nat, j: nat)
    requires AcceptedPath(v) && i + 2 <= j && j + 1 < |v|
    ensures forall p :: !OnBothSegments(p, v, i, j)
  {
    assert !SegmentsMeet(v, i, j);
    SegmentsIntersectExact(v[i], v[i + 1], v[j], v[j + 1]);
  }

  lemma NoInnerFold(v: Path, i: nat)
    requires AcceptedPath(v) && EndsClear(v) && i + 2 < |v|
    ensures !PointOnSegment(v[i + 2], v[i], v[i + 1]) && !PointOnSegment(v[i], v[i + 1], v[i + 2])
  {
    var a, b, c := v[i], v[i + 1], v[i + 2];
    PointOnSegmentExact(c, a, b);
    PointOnSegmentExact(a, b, c);
    if i + 3 < |v| {
      FarSegmentsShareNothing(v, i, i + 2);
      EndsOnOwnSegment(c, v[i + 3]);
      assert !OnBothSegments(Real(c), v, i, i + 2);
    }
    if i > 0 {
      FarSegmentsShareNothing(v, i - 1, i + 1);
      EndsOnOwnSegment(v[i - 1], a);
      assert !OnBothSegments(Real(a), v, i - 1, i + 1);
    }
  }

  lemma ClearEndsSimple(v: Path)
    requires AcceptedPath(v) && EndsClear(v)
    ensures TrulySimplePath(v)
  {
    forall i, j, p | 0 <= i < j && j + 1 < |v| && OnBothSegments(p, v, i, j)
      ensures j == i + 1 && p == Real(v[j])
    {
      if j == i + 1 {
        NoInnerFold(v, i);
        DoublesBack(v[i], v[j], v[j + 1], p);
      } else {
        FarSegmentsShareNothing(v, i, j);
      }
    }
  }

  lemma SimpleHasClearEnds(v: Path)
    requires AcceptedPath(v) && TrulySimplePath(v)
    ensures EndsClear(v)
  {
    if |v| >= 3 {
      var n := |v|;
      PointOnSegmentExact(v[n - 1], v[n - 3], v[n - 2]);
      EndsOnOwnSegment(v[n - 2], v[n - 1]);
      assert Real(v[n - 1]) != Real(v[n - 2]);
      assert !OnBothSegments(Real(v[n - 1]), v, n - 3, n - 2);
      PointOnSegmentExact(v[0], v[1], v[2]);
      EndsOnOwnSegment(v[0], v[1]);
      assert Real(v[0]) != Real(v[1]);
      assert !OnBothSegments(Real(v[0]), v, 0, 1);
    }
  }

  /** An accepted wire is simple exactly when neither end folds back onto the neighbouring segment. */
  lemma AcceptedPathSimpleExactly(v: Path)
    requires AcceptedPath(v)
    ensures TrulySimplePath(v) <==> EndsClear(v)
  {
    if EndsClear(v) {
      ClearEndsSimple(v);
    }
    if TrulySimplePath(v) {
      SimpleHasClearEnds(v);
    }
  }

  /** Every wire of three distinct vertices is accepted, although it overlaps itself exactly when either end folds back. */
  lemma FoldedWireAccepted(a: Point, b: Point, c: Point)
    requires a != b && a != c && b != c
    ensures AcceptedPath([a, b, c])
    ensures !TrulySimplePath([a, b, c]) <==> PointOnSegment(c, a, b) || PointOnSegment(a, b, c)
  {
    AcceptedPathSimpleExactly([a, b, c]);
  }

  lemma LevelFold(a: Point, b: Point, c: Point)
    requires a.y == b.y == c.y && a.x < c.x < b.x
    ensures AcceptedPath([a, b, c]) && !TrulySimplePath([a, b, c])
  {
    assert PointOnSegment(c, a, b);
    FoldedWireAccepted(a, b, c);
  }

  /** So acceptance alone does not make a wire simple. */
  lemma AcceptedButFolded()
    ensures AcceptedPath([Point(0, 0), Point(10, 0), Point(5, 0)])
    ensures !TrulySimplePath([Point(0, 0), Point(10, 0), Point(5, 0)])
  {
    LevelFold(Point(0, 0), Point(10, 0), Point(5, 0));
  }

  lemma {:induction false} ReversedPathAccepted(v: Path)
    requires AcceptedPath(v)
    ensures AcceptedPath(Reverse(v))
  {
    var n, q := |v|, Reverse(v);
    forall i, j | 0 <= i && i + 2 <= j && j + 1 < n ensures !SegmentsMeet(q, i, j) {
      var i', j' := n - 2 - j, n - 2 - i;
      var a, b, c, d := v[i'], v[i' + 1], v[j'], v[j' + 1];
      assert !SegmentsMeet(v, i', j');
      assert q[i] == d && q[i + 1] == c && q[j] == b && q[j + 1] == a;
      IntersectSymmetries(a, b, c, d);
      IntersectSymmetries(b, a, c, d);
      IntersectSymmetries(c, d, b, a);
    }
  }

  // ---------- Two wires on one sheet ----------

  predicate EndpointTouch(a: Point, b: Point, c: Point, d: Point) {
    PointOnSegment(a, c, d) || PointOnSegment(b, c, d) || PointOnSegment(c, a, b) || PointOnSegment(d, a, b)
  }

  predicate SegmentPairClear(a: Point, b: Point, c: Point, d: Point, sameNet: bool) {
    if !SegmentsIntersect(a, b, c, d) then true
    else if CollinearOverlapHasLength(a, b, c, d) then false
    else sameNet || !EndpointTouch(a, b, c, d)
  }

  ghost predicate PathsClear(u: Path, v: Path, sameNet: bool) {
    forall i, j :: 0 <= i < |u| - 1 && 0 <= j < |v| - 1 ==> SegmentPairClear(u[i], u[i + 1], v[j], v[j + 1], sameNet)
  }

  method ValidatePathPair(u: Path, v: Path, sameNet: bool) returns (ok: bool)
    ensures ok <==> PathsClear(u, v, sameNet)
  {
    var first := 0;
    while first < |u| - 1
      invariant 0 <= first
      invariant forall i, j :: 0 <= i < first && i < |u| - 1 && 0 <= j < |v| - 1 ==>
        SegmentPairClear(u[i], u[i + 1], v[j], v[j + 1], sameNet)
    {
      var second := 0;
      while second < |v| - 1
        invariant 0 <= second
        invariant forall j :: 0 <= j < second && j < |v| - 1 ==>
          SegmentPairClear(u[first], u[first + 1], v[j], v[j + 1], sameNet)
      {
        var a, b, c, d := u[first], u[first + 1], v[second], v[second + 1];
        if SegmentsIntersect(a, b, c, d) {
          if CollinearOverlapHasLength(a, b, c, d) {
            return false;
          }
          if !sameNet && EndpointTouch(a, b, c, d) {
            return false;
          }
        }
        second := second + 1;
      }
      first := first + 1;
    }
    return true;
  }

  ghost predicate Interior(p: RealPoint, a: Point, b: Point) {
    OnSegment(p, a, b) && p != Real(a) && p != Real(b)
  }

  /** Clear segments of different nets meet in at most one point, interior to both. */
  lemma DifferentNetsCrossInside(a: Point, b: Point, c: Point, d: Point, p: RealPoint, q: RealPoint)
    requires a != b && c != d && SegmentPairClear(a, b, c, d, false)
    requires Shared(p, a, b, c, d) && Shared(q, a, b, c, d)
    ensures p == q && Interior(p, a, b) && Interior(p, c, d)
  {
    SegmentsIntersectExact(a, b, c, d);
    CollinearOverlapExact(a, b, c, d);
    PointOnSegmentExact(a, c, d);
    PointOnSegmentExact(b, c, d);
    PointOnSegmentExact(c, a, b);
    PointOnSegmentExact(d, a, b);
  }

  lemma PointOnSegmentReversed(p: Point, a: Point, b: Point)
    ensures PointOnSegment(p, a, b) == PointOnSegment(p, b, a)
  {
    PointOnSegmentExact(p, a, b);
    PointOnSegmentExact(p, b, a);
    if OnSegment(Real(p), a, b) { OnSegmentReversed(Real(p), a, b); }
    if OnSegment(Real(p), b, a) { OnSegmentReversed(Real(p), b, a); }
  }

  lemma SegmentPairSymmetries(a: Point, b: Point, c: Point, d: Point, sameNet: bool)
    requires a != b && c != d
    ensures SegmentPairClear(a, b, c, d, sameNet) == SegmentPairClear(c, d, a, b, sameNet)
    ensures SegmentPairClear(a, b, c, d, sameNet) == SegmentPairClear(b, a, c, d, sameNet)
  {
    IntersectSymmetries(a, b, c, d);
    OverlapSymmetries(a, b, c, d);
    PointOnSegmentReversed(c, a, b);
    PointOnSegmentReversed(d, a, b);
  }

  lemma PathsClearSymmetric(u: Path, v: Path, sameNet: bool)
    requires NoRepeat(u) && NoRepeat(v) && PathsClear(u, v, sameNet)
    ensures PathsClear(v, u, sameNet)
  {
    forall i, j | 0 <= i < |v| - 1 && 0 <= j < |u| - 1
      ensures SegmentPairClear(v[i], v[i + 1], u[j], u[j + 1], sameNet)
    {
      SegmentPairSymmetries(u[j], u[j + 1], v[i], v[i + 1], sameNet);
    }
  }

  lemma {:induction false} PathsClearReversed(u: Path, v: Path, sameNet: bool)
    requires NoRepeat(u) && NoRepeat(v) && PathsClear(u, v, sameNet)
    ensures PathsClear(Reverse(u), v, sameNet)
  {
    var n, q := |u|, Reverse(u);
    forall i, j | 0 <= i < n - 1 && 0 <= j < |v| - 1
      ensures SegmentPairClear(q[i], q[i + 1], v[j], v[j + 1], sameNet)
    {
      var k := n - 2 - i;
      assert q[i] == u[k + 1] && q[i + 1] == u[k];
      SegmentPairSymmetries(u[k], u[k + 1], v[j], v[j + 1], sameNet);
    }
  }

  /** A point lies on some segment of the path. */
  ghost predicate OnPath(p: Point, v: Path) {
    exists i :: 0 <= i < |v| - 1 && PointOnSegment(p, v[i], v[i + 1])
  }

  lemma {:induction false} OnPathReversed(p: Point, v: Path)
    ensures OnPath(p, v) <==> OnPath(p, Reverse(v))
  {
    var n, q := |v|, Reverse(v);
    if OnPath(p, v) {
      var i :| 0 <= i < n - 1 && PointOnSegment(p, v[i], v[i + 1]);
      PointOnSegmentReversed(p, v[i], v[i + 1]);
      assert q[n - 2 - i] == v[i + 1] && q[n - 2 - i + 1] == v[i];
    }
    if OnPath(p, q) {
      var i :| 0 <= i < n - 1 && PointOnSegment(p, q[i], q[i + 1]);
      PointOnSegmentReversed(p, q[i], q[i + 1]);
      assert v[n - 2 - i] == q[i + 1] && v[n - 2 - i + 1] == q[i];
    }
  }

  method IsOnPath(p: Point, v: Path) returns (on: bool)
    ensures on <==> OnPath(p, v)
  {
    var k := 0;
    while k < |v| - 1
      invariant 0 <= k
      invariant forall i :: 0 <= i < k && i < |v| - 1 ==> !PointOnSegment(p, v[i], v[i + 1])
    {
      if PointOnSegment(p, v[k], v[k + 1]) {
        return true;
      }
      k := k + 1;
    }
    return false;
  }
}
