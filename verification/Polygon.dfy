/**
 Simple-polygon check of backend/design_kernel/model.py:187-212, and what it guarantees:
 edges of an accepted ring meet nowhere except at the common vertex of neighbours, although
 the check never compares neighbouring edges.
 */
module Polygon {
  import opened Geometry
  import opened Ring

  function Next(i: nat, n: nat): nat
    requires i < n
  {
    if i + 1 == n then 0 else i + 1
  }

  predicate NoRepeat<T(==)>(r: seq<T>) {
    forall i, j :: 0 <= i < j < |r| ==> r[i] != r[j]
  }

  predicate Neighbours(i: nat, j: nat, n: nat) {
    j == i + 1 || (i == 0 && j == n - 1)
  }

  function AreaTerm(r: Ring, i: nat): int
    requires i < |r|
  {
    var s, e := r[i], r[Next(i, |r|)];
    s.x * e.y - e.x * s.y
  }

  function AreaSum(r: Ring, k: nat): int
    requires k <= |r|
  {
    if k == 0 then 0 else AreaSum(r, k - 1) + AreaTerm(r, k - 1)
  }

  function TwiceArea(r: Ring): int {
    AreaSum(r, |r|)
  }

  predicate EdgesIntersect(r: Ring, i: nat, j: nat)
    requires i < |r| && j < |r|
  {
    SegmentsIntersect(r[i], r[Next(i, |r|)], r[j], r[Next(j, |r|)])
  }

  predicate NoFarIntersection(r: Ring) {
    forall i, j :: 0 <= i < j < |r| && !Neighbours(i, j, |r|) ==> !EdgesIntersect(r, i, j)
  }

  /** Rings the check accepts. */
  predicate AcceptedPolygon(v: Ring) {
    var r := OpenRing(v);
    |r| >= 3 && NoRepeat(r) && TwiceArea(r) != 0 && NoFarIntersection(r)
  }

  method HasRepeat(r: Ring) returns (found: bool)
    ensures found <==> !NoRepeat(r)
  {
    var seen: set<Point> := {};
    for k := 0 to |r|
      invariant forall p :: p in seen <==> p in r[..k]
      invariant NoRepeat(r[..k])
    {
      if r[k] in seen {
        var m :| 0 <= m < k && r[..k][m] == r[k];
        assert r[m] == r[k];
        return true;
      }
      assert r[..k + 1] == r[..k] + [r[k]];
      seen := seen + {r[k]};
    }
    assert r[..|r|] == r;
    return false;
  }

  method ValidateSimplePolygon(v: Ring) returns (ok: bool)
    ensures ok <==> AcceptedPolygon(v)
  {
    var ring := OpenRing(v);
    var n := |ring|;
    if n < 3 {
      return false;
    }
    var repeated := HasRepeat(ring);
    if repeated {
      return false;
    }
    var twiceArea := 0;
    for k := 0 to n
      invariant twiceArea == AreaSum(ring, k)
    {
      twiceArea := twiceArea + AreaTerm(ring, k);
    }
    if twiceArea == 0 {
      return false;
    }
    for first := 0 to n
      invariant forall i, j :: 0 <= i < first && i < j < n && !Neighbours(i, j, n) ==> !EdgesIntersect(ring, i, j)
    {
      for second := first + 1 to n
        invariant forall j :: first < j < second && !Neighbours(first, j, n) ==> !EdgesIntersect(ring, first, j)
      {
        if Neighbours(first, second, n) {
          continue;
        }
        if EdgesIntersect(ring, first, second) {
          return false;
        }
      }
    }
    return true;
  }

  // ---------- Meaning ----------

  ghost predicate OnBoth(p: RealPoint, r: Ring, i: nat, j: nat)
    requires i < |r| && j < |r|
  {
    Shared(p, r[i], r[Next(i, |r|)], r[j], r[Next(j, |r|)])
  }

  /** Distinct edges share no point, except neighbours, which share just their common vertex. */
  ghost predicate TrulySimple(r: Ring) {
    forall i, j, p :: 0 <= i < j < |r| && OnBoth(p, r, i, j) ==>
      (j == i + 1 && p == Real(r[j])) || (i == 0 && j == |r| - 1 && p == Real(r[0]))
  }

  /** Two edges AB, BC that share a point besides B double back: one end lies on the other edge. */
  lemma DoublesBack(a: Point, b: Point, c: Point, p: RealPoint)
    requires a != b && b != c && Shared(p, a, b, b, c)
    ensures p == Real(b) || (Cross(a, b, c) == 0 && (PointOnSegment(c, a, b) || PointOnSegment(a, b, c)))
  {
    if p != Real(b) {
      EndsOnOwnSegment(a, b);
      EndsOnOwnSegment(b, c);
      TwoSharedAreCollinear(p, Real(b), a, b, b, c);
      CollinearAxes(a, b, b, c);
      SharedInBox(p, a, b);
      SharedInBox(Real(b), a, b);
      SharedInBox(p, b, c);
      SameOnAxis(a, b, p, Real(b));
      if a.x != b.x {
        assert (a.x < b.x) == (c.x < b.x);
        if (a.x < b.x) == (a.x <= c.x) {
          BetweenOnLine(c, a, b);
        } else {
          BetweenOnLine(a, b, c);
        }
      } else {
        assert (a.y < b.y) == (c.y < b.y);
        if (a.y < b.y) == (a.y <= c.y) {
          BetweenOnLine(c, a, b);
        } else {
          BetweenOnLine(a, b, c);
        }
      }
    }
  }

  lemma TriangleArea(r: Ring)
    requires |r| == 3
    ensures TwiceArea(r) == Cross(r[0], r[1], r[2])
    ensures TwiceArea(r) == Cross(r[1], r[2], r[0]) == Cross(r[2], r[0], r[1])
  {
    assert AreaSum(r, 3) == AreaSum(r, 2) + AreaTerm(r, 2);
    assert AreaSum(r, 2) == AreaSum(r, 1) + AreaTerm(r, 1);
    assert AreaSum(r, 1) == AreaTerm(r, 0);
  }

  predicate FarApart(i: nat, j: nat, n: nat) {
    i < n && j < n && i != j && !Neighbours(i, j, n) && !Neighbours(j, i, n)
  }

  lemma FarEdgesShareNothing(r: Ring, i: nat, j: nat)
    requires NoFarIntersection(r) && FarApart(i, j, |r|)
    ensures !EdgesIntersect(r, i, j)
    ensures forall p :: !OnBoth(p, r, i, j)
  {
    IntersectSymmetries(r[i], r[Next(i, |r|)], r[j], r[Next(j, |r|)]);
    assert EdgesIntersect(r, i, j) == EdgesIntersect(r, j, i);
    SegmentsIntersectExact(r[i], r[Next(i, |r|)], r[j], r[Next(j, |r|)]);
  }

  /** The far edge that starts at C, or ends at A, rules out a spike ABC. */
  lemma NoSpike(r: Ring, i: nat)
    requires |r| >= 3 && TwiceArea(r) != 0 && NoFarIntersection(r) && i < |r|
    ensures var j := Next(i, |r|); var k := Next(j, |r|); var a, b, c := r[i], r[j], r[k];
            Cross(a, b, c) != 0 || (!PointOnSegment(c, a, b) && !PointOnSegment(a, b, c))
  {
    var n := |r|;
    var j := Next(i, n);
    var k := Next(j, n);
    var a, b, c := r[i], r[j], r[k];
    if n == 3 {
      TriangleArea(r);
    } else {
      var h := if i == 0 then n - 1 else i - 1;
      PointOnSegmentExact(c, a, b);
      EndsOnOwnSegment(c, r[Next(k, n)]);
      FarEdgesShareNothing(r, i, k);
      assert !OnBoth(Real(c), r, i, k);
      PointOnSegmentExact(a, b, c);
      EndsOnOwnSegment(r[h], a);
      FarEdgesShareNothing(r, j, h);
      assert !OnBoth(Real(a), r, j, h);
    }
  }

  lemma NeighbourEdgesMeetOnce(r: Ring, i: nat, p: RealPoint)
    requires |r| >= 3 && NoRepeat(r) && TwiceArea(r) != 0 && NoFarIntersection(r)
    requires i < |r| && OnBoth(p, r, i, Next(i, |r|))
    ensures p == Real(r[Next(i, |r|)])
  {
    var j := Next(i, |r|);
    NoSpike(r, i);
    DoublesBack(r[i], r[j], r[Next(j, |r|)], p);
  }

  lemma AcceptedIsTrulySimple(r: Ring)
    requires |r| >= 3 && NoRepeat(r) && TwiceArea(r) != 0 && NoFarIntersection(r)
    ensures TrulySimple(r)
  {
    forall i, j, p | 0 <= i < j < |r| && OnBoth(p, r, i, j)
      ensures (j == i + 1 && p == Real(r[j])) || (i == 0 && j == |r| - 1 && p == Real(r[0]))
    {
      if j == i + 1 {
        NeighbourEdgesMeetOnce(r, i, p);
      } else if i == 0 && j == |r| - 1 {
        NeighbourEdgesMeetOnce(r, j, p);
      } else {
        FarEdgesShareNothing(r, i, j);
      }
    }
  }

  /**
   The check accepts exactly the rings with three or more distinct vertices and non-zero
   area whose edges meet only at the common vertices of neighbours.
   */
  lemma AcceptedExactlySimple(v: Ring)
    ensures AcceptedPolygon(v) <==>
      (var r := OpenRing(v); |r| >= 3 && NoRepeat(r) && TwiceArea(r) != 0 && TrulySimple(r))
  {
    var r := OpenRing(v);
    if AcceptedPolygon(v) {
      AcceptedIsTrulySimple(r);
    }
    if |r| >= 3 && NoRepeat(r) && TwiceArea(r) != 0 && TrulySimple(r) {
      forall i, j | 0 <= i < j < |r| && !Neighbours(i, j, |r|) ensures !EdgesIntersect(r, i, j) {
        forall p ensures !Shared(p, r[i], r[Next(i, |r|)], r[j], r[Next(j, |r|)]) {
          assert !OnBoth(p, r, i, j);
        }
        SegmentsIntersectExact(r[i], r[Next(i, |r|)], r[j], r[Next(j, |r|)]);
      }
    }
  }

  // ---------- The check does not depend on start or direction ----------

  ghost predicate SimpleRing(r: Ring) {
    |r| >= 3 && NoRepeat(r) && TwiceArea(r) != 0 && NoFarIntersection(r)
  }

  lemma {:induction false} AreaOfShift(r: Ring, k: nat)
    requires 1 <= |r| && k < |r|
    ensures AreaSum(Rotation(r, 1), k) == AreaSum(r, k + 1) - AreaTerm(r, 0)
  {
    if k > 0 {
      AreaOfShift(r, k - 1);
      RotationAt(r, 1, k - 1);
      RotationAt(r, 1, Next(k - 1, |r|));
    } else {
      assert AreaSum(r, 1) == AreaSum(r, 0) + AreaTerm(r, 0);
    }
  }

  lemma {:induction false} AreaOfRotation(r: Ring, i: nat)
    requires i <= |r|
    ensures TwiceArea(Rotation(r, i)) == TwiceArea(r)
  {
    if i == 0 || |r| == 0 {
      assert Rotation(r, i) == r;
    } else {
      AreaOfRotation(r, i - 1);
      var q := Rotation(r, i - 1);
      RotationTwice(r, i - 1, 1);
      AreaOfShift(q, |r| - 1);
      RotationAt(q, 1, |r| - 1);
      RotationAt(q, 1, 0);
    }
  }

  lemma {:induction false} AreaOfReversePrefix(r: Ring, k: nat)
    requires k < |r|
    ensures AreaSum(Reverse(r), k) == AreaSum(r, |r| - 1 - k) - AreaSum(r, |r| - 1)
  {
    if k > 0 {
      AreaOfReversePrefix(r, k - 1);
    }
  }

  lemma {:induction false} AreaOfReverse(r: Ring)
    ensures TwiceArea(Reverse(r)) == -TwiceArea(r)
  {
    if |r| > 0 {
      AreaOfReversePrefix(r, |r| - 1);
    }
  }

  /** Where vertex `k` of a rotation comes from. */
  function Source(i: nat, k: nat, n: nat): nat { if i + k < n then i + k else i + k - n }

  lemma {:induction false} RotatedEdges(r: Ring, i: nat, k: nat, m: nat)
    requires |r| >= 3 && i <= |r| && 0 <= k < m < |r| && !Neighbours(k, m, |r|) && NoFarIntersection(r)
    ensures !EdgesIntersect(Rotation(r, i), k, m)
  {
    var n, q := |r|, Rotation(r, i);
    var k', m' := Source(i, k, n), Source(i, m, n);
    RotationAt(r, i, k);
    RotationAt(r, i, m);
    RotationAt(r, i, Next(k, n));
    RotationAt(r, i, Next(m, n));
    FarEdgesShareNothing(r, k', m');
    assert EdgesIntersect(q, k, m) == EdgesIntersect(r, k', m');
  }

  lemma {:induction false} RotationNoRepeat(r: Ring, i: nat)
    requires NoRepeat(r) && i <= |r|
    ensures NoRepeat(Rotation(r, i))
  {
  }

  lemma {:induction false} RotationKeepsSimple(r: Ring, i: nat)
    requires SimpleRing(r) && i <= |r|
    ensures SimpleRing(Rotation(r, i))
  {
    AreaOfRotation(r, i);
    RotationNoRepeat(r, i);
    forall k, m | 0 <= k < m < |r| && !Neighbours(k, m, |r|) ensures !EdgesIntersect(Rotation(r, i), k, m) {
      RotatedEdges(r, i, k, m);
    }
  }

  lemma {:induction false} ReverseKeepsSimple(r: Ring)
    requires SimpleRing(r)
    ensures SimpleRing(Reverse(r))
  {
    var n, q := |r|, Reverse(r);
    AreaOfReverse(r);
    forall k, m | 0 <= k < m < n && !Neighbours(k, m, n) ensures !EdgesIntersect(q, k, m) {
      var k' := if k == n - 1 then n - 1 else n - 2 - k;
      var m' := if m == n - 1 then n - 1 else n - 2 - m;
      FarEdgesShareNothing(r, k', m');
      var a, b, c, d := r[k'], r[Next(k', n)], r[m'], r[Next(m', n)];
      assert q[k] == b && q[Next(k, n)] == a && q[m] == d && q[Next(m, n)] == c;
      IntersectSymmetries(a, b, c, d);
      IntersectSymmetries(b, a, c, d);
      IntersectSymmetries(c, d, b, a);
      IntersectSymmetries(d, c, b, a);
    }
  }

  lemma SameCycleKeepsSimple(u: Ring, v: Ring)
    requires SimpleRing(u) && SameCycle(u, v)
    ensures SimpleRing(v)
  {
    var r, i: nat :| i <= |u| && v == Turn(u, r, i);
    if r {
      ReverseKeepsSimple(u);
      RotationKeepsSimple(Reverse(u), i);
    } else {
      RotationKeepsSimple(u, i);
    }
  }

  /** A ring is accepted exactly when its normal form is, and the normal form is already open. */
  lemma NormalFormAccepted(v: Ring)
    ensures AcceptedPolygon(v) <==> AcceptedPolygon(NormalizedRing(v))
    ensures AcceptedPolygon(v) ==> OpenRing(NormalizedRing(v)) == NormalizedRing(v)
  {
    var o, n := OpenRing(v), NormalizedRing(v);
    NormalFormIsLeast(v);
    if SimpleRing(o) {
      OpenedNormalForm(v);
      SameCycleKeepsSimple(o, n);
    }
    if SimpleRing(OpenRing(n)) {
      assert OpenRing(n)[0] != OpenRing(n)[1];
      SameCycleSymmetric(o, n);
      ConstantTurns(n, o);
      OpenedNormalForm(v);
      SameCycleKeepsSimple(n, o);
    }
  }
}
