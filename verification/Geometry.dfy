/**
 Exact integer geometry of backend/design_kernel/model.py.

 The tests work on integer nanometres only.  What they mean is stated over real points:
 `Along(a, b, t)` is the point at parameter `t` of a segment, and a segment is the set of
 its points for `0 <= t <= 1`.
 */
module Geometry {

  datatype Point = Point(x: int, y: int)
  datatype RealPoint = RealPoint(x: real, y: real)

  function Min(a: int, b: int): int { if a <= b then a else b }
  function Max(a: int, b: int): int { if a <= b then b else a }

  /** Exact signed cross product of AB and AC. */
  function Cross(a: Point, b: Point, c: Point): int {
    (b.x - a.x) * (c.y - a.y) - (b.y - a.y) * (c.x - a.x)
  }

  predicate PointOnSegment(p: Point, a: Point, b: Point) {
    && Cross(a, b, p) == 0
    && Min(a.x, b.x) <= p.x <= Max(a.x, b.x)
    && Min(a.y, b.y) <= p.y <= Max(a.y, b.y)
  }

  predicate Straddles(u: int, v: int) {
    u < 0 < v || v < 0 < u
  }

  predicate SegmentsIntersect(a: Point, b: Point, c: Point, d: Point) {
    if Cross(a, b, c) == 0 && PointOnSegment(c, a, b) then true
    else if Cross(a, b, d) == 0 && PointOnSegment(d, a, b) then true
    else if Cross(c, d, a) == 0 && PointOnSegment(a, c, d) then true
    else if Cross(c, d, b) == 0 && PointOnSegment(b, c, d) then true
    else Straddles(Cross(a, b, c), Cross(a, b, d)) && Straddles(Cross(c, d, a), Cross(c, d, b))
  }

  predicate CollinearOverlapHasLength(a: Point, b: Point, c: Point, d: Point) {
    if Cross(a, b, c) != 0 || Cross(a, b, d) != 0 then false
    else if a.x != b.x then
      Max(Min(a.x, b.x), Min(c.x, d.x)) < Min(Max(a.x, b.x), Max(c.x, d.x))
    else
      Max(Min(a.y, b.y), Min(c.y, d.y)) < Min(Max(a.y, b.y), Max(c.y, d.y))
  }

  // ---------- Meaning over the reals ----------

  function Real(p: Point): RealPoint { RealPoint(p.x as real, p.y as real) }

  function Lerp(u: real, v: real, t: real): real {
    u + t * (v - u)
  }

  function Along(a: Point, b: Point, t: real): RealPoint {
    RealPoint(Lerp(a.x as real, b.x as real, t), Lerp(a.y as real, b.y as real, t))
  }

  ghost predicate OnSegment(p: RealPoint, a: Point, b: Point) {
    exists t: real :: 0.0 <= t <= 1.0 && p == Along(a, b, t)
  }

  ghost predicate Shared(p: RealPoint, a: Point, b: Point, c: Point, d: Point) {
    OnSegment(p, a, b) && OnSegment(p, c, d)
  }

  /** Cross product of AB with A to a real point. */
  function RealCross(a: Point, b: Point, p: RealPoint): real {
    (b.x as real - a.x as real) * (p.y - a.y as real) - (b.y as real - a.y as real) * (p.x - a.x as real)
  }

  lemma CrossToReal(a: Point, b: Point, c: Point)
    ensures RealCross(a, b, Real(c)) == Cross(a, b, c) as real
  {
    assert ((b.x - a.x) * (c.y - a.y)) as real == (b.x - a.x) as real * (c.y - a.y) as real;
  }

  /** The cross product is affine along a segment. */
  lemma CrossAlong(a: Point, b: Point, c: Point, d: Point, s: real)
    ensures RealCross(a, b, Along(c, d, s)) == (1.0 - s) * (Cross(a, b, c) as real) + s * (Cross(a, b, d) as real)
  {
    CrossToReal(a, b, c);
    CrossToReal(a, b, d);
  }

  lemma CrossOnOwnLine(a: Point, b: Point, t: real)
    ensures RealCross(a, b, Along(a, b, t)) == 0.0
  {
  }

  // ---------- Exactness of the point test ----------

  /** A point of a segment lies inside its bounding box. */
  lemma LerpBetween(u: real, v: real, t: real)
    requires 0.0 <= t <= 1.0
    ensures u <= v ==> u <= Lerp(u, v, t) <= v
    ensures v <= u ==> v <= Lerp(u, v, t) <= u
  {
    var w := v - u;
    assert 0.0 <= w ==> 0.0 <= t * w && 0.0 <= (1.0 - t) * w;
    assert w <= 0.0 ==> t * w <= 0.0 && (1.0 - t) * w <= 0.0;
    assert (1.0 - t) * w == w - t * w;
  }

  lemma LerpSolve(u: int, v: int, w: int) returns (t: real)
    requires u != v && Min(u, v) <= w <= Max(u, v)
    ensures 0.0 <= t <= 1.0 && Lerp(u as real, v as real, t) == w as real
  {
    t := (w as real - u as real) / (v as real - u as real);
  }

  lemma RatioTransfer(t: real, dx: real, dy: real, px: real, py: real)
    requires dx != 0.0 && px == t * dx && dx * py == dy * px
    ensures py == t * dy
  {
    assert dx * py == dx * (t * dy);
  }

  lemma PointOnSegmentExact(p: Point, a: Point, b: Point)
    ensures PointOnSegment(p, a, b) <==> OnSegment(Real(p), a, b)
  {
    CrossToReal(a, b, p);
    if PointOnSegment(p, a, b) {
      var t := 0.0;
      var dx, dy := b.x as real - a.x as real, b.y as real - a.y as real;
      var px, py := p.x as real - a.x as real, p.y as real - a.y as real;
      if a.x != b.x {
        t := LerpSolve(a.x, b.x, p.x);
        RatioTransfer(t, dx, dy, px, py);
      } else if a.y != b.y {
        t := LerpSolve(a.y, b.y, p.y);
        RatioTransfer(t, dy, dx, py, px);
      }
      assert Real(p) == Along(a, b, t);
    }
    if OnSegment(Real(p), a, b) {
      var t :| 0.0 <= t <= 1.0 && Real(p) == Along(a, b, t);
      CrossOnOwnLine(a, b, t);
      LerpBetween(a.x as real, b.x as real, t);
      LerpBetween(a.y as real, b.y as real, t);
    }
  }

  // ---------- Exactness of the segment test ----------

  lemma CancelScale(k: real, u: real, v: real)
    requires k != 0.0 && k * u == k * v
    ensures u == v
  {
  }

  /** Cramer's rule for one coordinate of the crossing point. */
  lemma CommonCoordinate(k: real, n: real, m: real, u: real, v: real, w: real, z: real, t: real, s: real)
    requires k != 0.0 && k * t == n && k * s == -m
    requires k * u + n * (v - u) == k * w - m * (z - w)
    ensures Lerp(u, v, t) == Lerp(w, z, s)
  {
    assert k * Lerp(u, v, t) == k * u + (k * t) * (v - u);
    assert k * Lerp(w, z, s) == k * w + (k * s) * (z - w);
    CancelScale(k, Lerp(u, v, t), Lerp(w, z, s));
  }

  lemma CrossDifference(a: Point, b: Point, c: Point, d: Point)
    ensures Cross(a, b, d) - Cross(a, b, c) == Cross(c, d, a) - Cross(c, d, b)
  {
  }

  lemma CrossingIdentity(a: Point, b: Point, c: Point, d: Point, k: int)
    requires k == Cross(a, b, d) - Cross(a, b, c)
    ensures k * a.x + Cross(c, d, a) * (b.x - a.x) == k * c.x - Cross(a, b, c) * (d.x - c.x)
    ensures k * a.y + Cross(c, d, a) * (b.y - a.y) == k * c.y - Cross(a, b, c) * (d.y - c.y)
  {
  }

  lemma Fraction(n: int, k: int) returns (t: real)
    requires 0 < n < k || k < n < 0
    ensures 0.0 <= t <= 1.0 && k as real * t == n as real
  {
    t := n as real / k as real;
  }

  /** Two strict straddles give one common point. */
  lemma ProperCrossingMeets(a: Point, b: Point, c: Point, d: Point)
    requires Straddles(Cross(a, b, c), Cross(a, b, d)) && Straddles(Cross(c, d, a), Cross(c, d, b))
    ensures exists p :: Shared(p, a, b, c, d)
  {
    var abc, cda := Cross(a, b, c), Cross(c, d, a);
    var k := Cross(a, b, d) - abc;
    CrossDifference(a, b, c, d);
    CrossingIdentity(a, b, c, d, k);
    var t, s := CrossingParameters(a, b, c, d, k, cda, abc);
    assert Shared(Along(a, b, t), a, b, c, d);
  }

  lemma CrossingParameters(a: Point, b: Point, c: Point, d: Point, k: int, n: int, m: int) returns (t: real, s: real)
    requires 0 < n < k || k < n < 0
    requires 0 < -m < k || k < -m < 0
    requires k * a.x + n * (b.x - a.x) == k * c.x - m * (d.x - c.x)
    requires k * a.y + n * (b.y - a.y) == k * c.y - m * (d.y - c.y)
    ensures 0.0 <= t <= 1.0 && 0.0 <= s <= 1.0 && Along(a, b, t) == Along(c, d, s)
  {
    t := Fraction(n, k);
    s := Fraction(-m, k);
    SumToReal(k, n, m, a.x, b.x, c.x, d.x);
    SumToReal(k, n, m, a.y, b.y, c.y, d.y);
    var rk, rn, rm := k as real, n as real, m as real;
    assert rk * s == -rm;
    CommonCoordinate(rk, rn, rm, a.x as real, b.x as real, c.x as real, d.x as real, t, s);
    CommonCoordinate(rk, rn, rm, a.y as real, b.y as real, c.y as real, d.y as real, t, s);
  }

  lemma SumToReal(k: int, n: int, m: int, u: int, v: int, w: int, z: int)
    requires k * u + n * (v - u) == k * w - m * (z - w)
    ensures k as real * u as real + n as real * (v as real - u as real)
         == k as real * w as real - m as real * (z as real - w as real)
  {
    assert (k * u + n * (v - u)) as real == k as real * u as real + n as real * (v as real - u as real);
    assert (k * w - m * (z - w)) as real == k as real * w as real - m as real * (z as real - w as real);
  }

  lemma IntersectImpliesShared(a: Point, b: Point, c: Point, d: Point)
    requires SegmentsIntersect(a, b, c, d)
    ensures exists p :: Shared(p, a, b, c, d)
  {
    EndsOnOwnSegment(a, b);
    EndsOnOwnSegment(c, d);
    PointOnSegmentExact(c, a, b);
    PointOnSegmentExact(d, a, b);
    PointOnSegmentExact(a, c, d);
    PointOnSegmentExact(b, c, d);
    if PointOnSegment(c, a, b) {
      assert Shared(Real(c), a, b, c, d);
    } else if PointOnSegment(d, a, b) {
      assert Shared(Real(d), a, b, c, d);
    } else if PointOnSegment(a, c, d) {
      assert Shared(Real(a), a, b, c, d);
    } else if PointOnSegment(b, c, d) {
      assert Shared(Real(b), a, b, c, d);
    } else {
      ProperCrossingMeets(a, b, c, d);
    }
  }

  lemma EndsOnOwnSegment(a: Point, b: Point)
    ensures OnSegment(Real(a), a, b) && OnSegment(Real(b), a, b)
  {
    AlongEnds(a, b);
  }

  lemma AlongEnds(a: Point, b: Point)
    ensures Along(a, b, 0.0) == Real(a) && Along(a, b, 1.0) == Real(b)
  {
  }

  /** A weighted sum of two signed distances is zero only if they straddle, or the weight picks a zero one. */
  lemma Balance(u: int, v: int, s: real)
    requires 0.0 <= s <= 1.0
    requires (1.0 - s) * (u as real) + s * (v as real) == 0.0
    ensures Straddles(u, v) || (u == 0 && v == 0) || (u == 0 && s == 0.0) || (v == 0 && s == 1.0)
  {
    if u == 0 && v != 0 {
      assert s * (v as real) == 0.0;
    } else if v == 0 && u != 0 {
      assert (1.0 - s) * (u as real) == 0.0;
    } else if u > 0 && v > 0 {
      BothPositive(u as real, v as real, s);
    } else if u < 0 && v < 0 {
      BothPositive(-u as real, -v as real, s);
    }
  }

  lemma BothPositive(u: real, v: real, s: real)
    requires 0.0 <= s <= 1.0 && u > 0.0 && v > 0.0
    ensures (1.0 - s) * u + s * v > 0.0
  {
    if s == 0.0 {
    } else {
      assert s * v > 0.0 && (1.0 - s) * u >= 0.0;
    }
  }

  /** On one line, an end between the other segment's ends on a varying axis is on that segment. */
  lemma BetweenOnLine(q: Point, a: Point, b: Point)
    requires Cross(a, b, q) == 0 && a != b
    requires a.x != b.x ==> Min(a.x, b.x) <= q.x <= Max(a.x, b.x)
    requires a.x == b.x ==> Min(a.y, b.y) <= q.y <= Max(a.y, b.y)
    ensures PointOnSegment(q, a, b)
  {
    CrossToReal(a, b, q);
    var t: real;
    var dx, dy := b.x as real - a.x as real, b.y as real - a.y as real;
    var px, py := q.x as real - a.x as real, q.y as real - a.y as real;
    if a.x != b.x {
      t := LerpSolve(a.x, b.x, q.x);
      RatioTransfer(t, dx, dy, px, py);
    } else {
      t := LerpSolve(a.y, b.y, q.y);
      RatioTransfer(t, dy, dx, py, px);
    }
    assert Real(q) == Along(a, b, t);
    PointOnSegmentExact(q, a, b);
  }

  lemma SharedInBox(p: RealPoint, a: Point, b: Point)
    requires OnSegment(p, a, b)
    ensures Min(a.x, b.x) as real <= p.x <= Max(a.x, b.x) as real
    ensures Min(a.y, b.y) as real <= p.y <= Max(a.y, b.y) as real
    ensures RealCross(a, b, p) == 0.0
  {
    var t :| 0.0 <= t <= 1.0 && p == Along(a, b, t);
    LerpBetween(a.x as real, b.x as real, t);
    LerpBetween(a.y as real, b.y as real, t);
    CrossOnOwnLine(a, b, t);
  }

  lemma CollinearAxes(a: Point, b: Point, c: Point, d: Point)
    requires a != b && c != d && Cross(a, b, c) == 0 && Cross(a, b, d) == 0
    ensures a.x == b.x <==> c.x == d.x
    ensures a.x == b.x ==> c.x == a.x
    ensures Cross(c, d, a) == 0 && Cross(c, d, b) == 0
  {
    var dx, dy := b.x - a.x, b.y - a.y;
    assert dx * (d.y - c.y) == dy * (d.x - c.x);
    if dx == 0 {
      assert dy * (c.x - a.x) == 0 && dy * (d.x - a.x) == 0;
    } else if c.x != d.x {
      assert dx * Cross(c, d, a) == 0 by {
        assert dx * Cross(c, d, a) == (d.x - c.x) * (dx * (a.y - c.y)) - (dx * (d.y - c.y)) * (a.x - c.x);
        assert dx * (a.y - c.y) == dy * (a.x - c.x);
      }
    }
    assert Cross(c, d, b) - Cross(c, d, a) == Cross(a, b, c) - Cross(a, b, d);
  }

  lemma CollinearSharedIntersect(p: RealPoint, a: Point, b: Point, c: Point, d: Point)
    requires Shared(p, a, b, c, d)
    requires Cross(a, b, c) == 0 && Cross(a, b, d) == 0 && Cross(c, d, a) == 0 && Cross(c, d, b) == 0
    ensures SegmentsIntersect(a, b, c, d)
  {
    SharedInBox(p, a, b);
    SharedInBox(p, c, d);
    if a == b {
      assert p == Real(a);
      PointOnSegmentExact(a, c, d);
    } else if c == d {
      assert p == Real(c);
      PointOnSegmentExact(c, a, b);
    } else {
      CollinearAxes(a, b, c, d);
      if a.x != b.x {
        if Min(a.x, b.x) <= Min(c.x, d.x) {
          BetweenOnLine(if c.x <= d.x then c else d, a, b);
        } else {
          BetweenOnLine(if a.x <= b.x then a else b, c, d);
        }
      } else {
        if Min(a.y, b.y) <= Min(c.y, d.y) {
          BetweenOnLine(if c.y <= d.y then c else d, a, b);
        } else {
          BetweenOnLine(if a.y <= b.y then a else b, c, d);
        }
      }
    }
  }

  lemma SharedImpliesIntersect(p: RealPoint, a: Point, b: Point, c: Point, d: Point)
    requires Shared(p, a, b, c, d)
    ensures SegmentsIntersect(a, b, c, d)
  {
    var t :| 0.0 <= t <= 1.0 && p == Along(a, b, t);
    var s :| 0.0 <= s <= 1.0 && p == Along(c, d, s);
    CrossOnOwnLine(a, b, t);
    CrossOnOwnLine(c, d, s);
    CrossAlong(a, b, c, d, s);
    CrossAlong(c, d, a, b, t);
    Balance(Cross(a, b, c), Cross(a, b, d), s);
    Balance(Cross(c, d, a), Cross(c, d, b), t);
    CrossDifference(a, b, c, d);
    PointOnSegmentExact(c, a, b);
    PointOnSegmentExact(d, a, b);
    PointOnSegmentExact(a, c, d);
    PointOnSegmentExact(b, c, d);
    AlongEnds(a, b);
    AlongEnds(c, d);
    if Cross(a, b, c) == 0 && Cross(a, b, d) == 0 && Cross(c, d, a) == 0 && Cross(c, d, b) == 0 {
      CollinearSharedIntersect(p, a, b, c, d);
    }
  }

  /** The integer test holds exactly when the two closed segments have a common real point. */
  lemma SegmentsIntersectExact(a: Point, b: Point, c: Point, d: Point)
    ensures SegmentsIntersect(a, b, c, d) <==> exists p :: Shared(p, a, b, c, d)
  {
    if SegmentsIntersect(a, b, c, d) {
      IntersectImpliesShared(a, b, c, d);
    }
    forall p | Shared(p, a, b, c, d) ensures SegmentsIntersect(a, b, c, d) {
      SharedImpliesIntersect(p, a, b, c, d);
    }
  }

  // ---------- Exactness of the overlap test ----------

  /** Low end of a collinear overlap: an end of one segment that lies on the other. */
  lemma OverlapEnd(a: Point, b: Point, c: Point, d: Point, low: bool) returns (q: Point)
    requires a != b && c != d && CollinearOverlapHasLength(a, b, c, d)
    ensures PointOnSegment(q, a, b) && PointOnSegment(q, c, d)
    ensures a.x != b.x ==> q.x == if low then Max(Min(a.x, b.x), Min(c.x, d.x)) else Min(Max(a.x, b.x), Max(c.x, d.x))
    ensures a.x == b.x ==> q.y == if low then Max(Min(a.y, b.y), Min(c.y, d.y)) else Min(Max(a.y, b.y), Max(c.y, d.y))
  {
    CollinearAxes(a, b, c, d);
    var byX := a.x != b.x;
    var aFirst, cFirst := if byX then a.x <= b.x else a.y <= b.y, if byX then c.x <= d.x else c.y <= d.y;
    var fromAB := if aFirst == low then a else b;
    var fromCD := if cFirst == low then c else d;
    var abInside := if byX then (if low then fromCD.x <= fromAB.x else fromAB.x <= fromCD.x)
                    else (if low then fromCD.y <= fromAB.y else fromAB.y <= fromCD.y);
    if abInside {
      q := fromAB;
      BetweenOnLine(q, c, d);
    } else {
      q := fromCD;
      BetweenOnLine(q, a, b);
    }
  }

  lemma OverlapImpliesTwoShared(a: Point, b: Point, c: Point, d: Point)
    requires a != b && c != d && CollinearOverlapHasLength(a, b, c, d)
    ensures exists p, q :: p != q && Shared(p, a, b, c, d) && Shared(q, a, b, c, d)
  {
    var low := OverlapEnd(a, b, c, d, true);
    var high := OverlapEnd(a, b, c, d, false);
    PointOnSegmentExact(low, a, b);
    PointOnSegmentExact(low, c, d);
    PointOnSegmentExact(high, a, b);
    PointOnSegmentExact(high, c, d);
    assert Real(low) != Real(high);
    assert Shared(Real(low), a, b, c, d) && Shared(Real(high), a, b, c, d);
  }

  /** An affine function with two zeros is zero. */
  lemma TwoZeros(u: real, v: real, s: real, s': real)
    requires s != s' && (1.0 - s) * u + s * v == 0.0 && (1.0 - s') * u + s' * v == 0.0
    ensures u == 0.0 && v == 0.0
  {
    assert (s - s') * (v - u) == 0.0;
    assert v == u;
  }

  /** Two points of one line that agree on a varying axis are equal. */
  lemma SameOnAxis(a: Point, b: Point, p: RealPoint, q: RealPoint)
    requires RealCross(a, b, p) == 0.0 && RealCross(a, b, q) == 0.0
    ensures a.x != b.x && p.x == q.x ==> p == q
    ensures a.x == b.x && a.y != b.y ==> p.x == q.x
  {
    var dx, dy := b.x as real - a.x as real, b.y as real - a.y as real;
    assert dx * (p.y - q.y) == dy * (p.x - q.x);
    if a.x != b.x && p.x == q.x {
      assert dx * (p.y - q.y) == 0.0;
    }
    if a.x == b.x && a.y != b.y {
      assert dy * (p.x - q.x) == 0.0;
    }
  }

  lemma TwoAlongAreCollinear(a: Point, b: Point, c: Point, d: Point, s: real, s': real)
    requires s != s' && RealCross(a, b, Along(c, d, s)) == 0.0 && RealCross(a, b, Along(c, d, s')) == 0.0
    ensures Cross(a, b, c) == 0 && Cross(a, b, d) == 0
  {
    CrossAlong(a, b, c, d, s);
    CrossAlong(a, b, c, d, s');
    TwoZeros(Cross(a, b, c) as real, Cross(a, b, d) as real, s, s');
  }

  lemma TwoSharedAreCollinear(p: RealPoint, q: RealPoint, a: Point, b: Point, c: Point, d: Point)
    requires p != q && Shared(p, a, b, c, d) && Shared(q, a, b, c, d)
    ensures Cross(a, b, c) == 0 && Cross(a, b, d) == 0
  {
    var s :| 0.0 <= s <= 1.0 && p == Along(c, d, s);
    var s' :| 0.0 <= s' <= 1.0 && q == Along(c, d, s');
    SharedInBox(p, a, b);
    SharedInBox(q, a, b);
    TwoAlongAreCollinear(a, b, c, d, s, s');
  }

  lemma TwoInsideBothIntervals(u: int, v: int, w: int, z: int, x: real, y: real)
    requires Min(u, v) as real <= x <= Max(u, v) as real && Min(w, z) as real <= x <= Max(w, z) as real
    requires Min(u, v) as real <= y <= Max(u, v) as real && Min(w, z) as real <= y <= Max(w, z) as real
    requires x != y
    ensures Max(Min(u, v), Min(w, z)) < Min(Max(u, v), Max(w, z))
  {
    var low, high := Max(Min(u, v), Min(w, z)), Min(Max(u, v), Max(w, z));
    assert low as real <= x <= high as real && low as real <= y <= high as real;
  }

  lemma TwoSharedImpliesOverlap(p: RealPoint, q: RealPoint, a: Point, b: Point, c: Point, d: Point)
    requires a != b && c != d && p != q && Shared(p, a, b, c, d) && Shared(q, a, b, c, d)
    ensures CollinearOverlapHasLength(a, b, c, d)
  {
    TwoSharedAreCollinear(p, q, a, b, c, d);
    SharedInBox(p, a, b);
    SharedInBox(q, a, b);
    SharedInBox(p, c, d);
    SharedInBox(q, c, d);
    SameOnAxis(a, b, p, q);
    if a.x != b.x {
      TwoInsideBothIntervals(a.x, b.x, c.x, d.x, p.x, q.x);
    } else {
      TwoInsideBothIntervals(a.y, b.y, c.y, d.y, p.y, q.y);
    }
  }

  /** The overlap test holds exactly when two non-degenerate segments share more than one point. */
  lemma CollinearOverlapExact(a: Point, b: Point, c: Point, d: Point)
    requires a != b && c != d
    ensures CollinearOverlapHasLength(a, b, c, d)
       <==> exists p, q :: p != q && Shared(p, a, b, c, d) && Shared(q, a, b, c, d)
  {
    if CollinearOverlapHasLength(a, b, c, d) {
      OverlapImpliesTwoShared(a, b, c, d);
    }
    forall p, q | p != q && Shared(p, a, b, c, d) && Shared(q, a, b, c, d)
      ensures CollinearOverlapHasLength(a, b, c, d)
    {
      TwoSharedImpliesOverlap(p, q, a, b, c, d);
    }
  }

  // ---------- Symmetries, from the meaning ----------

  lemma OnSegmentReversed(p: RealPoint, a: Point, b: Point)
    requires OnSegment(p, a, b)
    ensures OnSegment(p, b, a)
  {
    var t :| 0.0 <= t <= 1.0 && p == Along(a, b, t);
    assert p == Along(b, a, 1.0 - t);
  }

  lemma SharedSymmetries(a: Point, b: Point, c: Point, d: Point)
    ensures forall p :: Shared(p, a, b, c, d) <==> Shared(p, c, d, a, b)
    ensures forall p :: Shared(p, a, b, c, d) <==> Shared(p, b, a, c, d)
  {
    forall p ensures OnSegment(p, a, b) <==> OnSegment(p, b, a) {
      if OnSegment(p, a, b) { OnSegmentReversed(p, a, b); }
      if OnSegment(p, b, a) { OnSegmentReversed(p, b, a); }
    }
  }

  lemma IntersectSymmetries(a: Point, b: Point, c: Point, d: Point)
    ensures SegmentsIntersect(a, b, c, d) == SegmentsIntersect(c, d, a, b)
    ensures SegmentsIntersect(a, b, c, d) == SegmentsIntersect(b, a, c, d)
  {
    SharedSymmetries(a, b, c, d);
    SegmentsIntersectExact(a, b, c, d);
    SegmentsIntersectExact(c, d, a, b);
    SegmentsIntersectExact(b, a, c, d);
  }

  lemma OverlapSymmetries(a: Point, b: Point, c: Point, d: Point)
    requires a != b && c != d
    ensures CollinearOverlapHasLength(a, b, c, d) == CollinearOverlapHasLength(c, d, a, b)
    ensures CollinearOverlapHasLength(a, b, c, d) == CollinearOverlapHasLength(b, a, c, d)
  {
    SharedSymmetries(a, b, c, d);
    CollinearOverlapExact(a, b, c, d);
    CollinearOverlapExact(c, d, a, b);
    CollinearOverlapExact(b, a, c, d);
  }
}
