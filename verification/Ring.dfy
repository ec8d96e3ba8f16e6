/**
 Canonical form of a closed ring (backend/design_kernel/model.py:124-146): the
 lexicographically least of all rotations of the opened ring and of its reversal.
 */
module Ring {
  import opened Geometry
  import Lex

  type Ring = seq<Point>

  function OpenRing(v: Ring): Ring {
    if |v| > 1 && v[0] == v[|v| - 1] then v[..|v| - 1] else v
  }

  function Reverse<T>(v: seq<T>): (r: seq<T>)
    ensures |r| == |v| && forall i :: 0 <= i < |v| ==> r[i] == v[|v| - 1 - i]
  {
    if v == [] then [] else Reverse(v[1..]) + [v[0]]
  }

  function Rotation(v: Ring, i: nat): Ring
    requires i <= |v|
  {
    v[i..] + v[..i]
  }

  /** Coordinates in order: comparing these compares tuples of points. */
  function Flatten(v: Ring): Lex.Key {
    if v == [] then [] else [v[0].x, v[0].y] + Flatten(v[1..])
  }

  predicate RingLe(u: Ring, v: Ring) {
    Lex.Le(Flatten(u), Flatten(v))
  }

  function Least(cs: seq<Ring>): Ring
    requires cs != []
  {
    if |cs| == 1 then cs[0]
    else
      var m := Least(cs[1..]);
      if RingLe(cs[0], m) then cs[0] else m
  }

  function Rotations(v: Ring): seq<Ring> {
    seq(|v|, i requires 0 <= i < |v| => Rotation(v, i))
  }

  function NormalizedRing(v: Ring): Ring {
    var o := OpenRing(v);
    if o == [] then [] else Least(Rotations(o) + Rotations(Reverse(o)))
  }

  // ---------- Independent meaning: the same cycle up to start and direction ----------

  function Turn(u: Ring, reversed: bool, i: nat): Ring
    requires i <= |u|
  {
    Rotation(if reversed then Reverse(u) else u, i)
  }

  ghost predicate SameCycle(u: Ring, v: Ring) {
    exists reversed: bool, i: nat :: i <= |u| && v == Turn(u, reversed, i)
  }

  lemma RotationAt(v: Ring, i: nat, k: nat)
    requires i <= |v| && k < |v|
    ensures Rotation(v, i)[k] == if i + k < |v| then v[i + k] else v[i + k - |v|]
  {
  }

  lemma {:induction false} RotationTwice(v: Ring, i: nat, j: nat)
    requires i <= |v| && j <= |v|
    ensures Rotation(Rotation(v, i), j) == Rotation(v, if i + j <= |v| then i + j else i + j - |v|)
  {
    var k := if i + j <= |v| then i + j else i + j - |v|;
    forall m | 0 <= m < |v| ensures Rotation(Rotation(v, i), j)[m] == Rotation(v, k)[m] {
      RotationAt(Rotation(v, i), j, m);
      RotationAt(v, k, m);
      RotationAt(v, i, if j + m < |v| then j + m else j + m - |v|);
    }
  }

  lemma {:induction false} ReverseOfRotation(v: Ring, i: nat)
    requires i <= |v|
    ensures Reverse(Rotation(v, i)) == Rotation(Reverse(v), |v| - i)
  {
    forall m | 0 <= m < |v| ensures Reverse(Rotation(v, i))[m] == Rotation(Reverse(v), |v| - i)[m] {
      RotationAt(v, i, |v| - 1 - m);
      RotationAt(Reverse(v), |v| - i, m);
    }
  }

  lemma {:induction false} ReverseTwice<T>(v: seq<T>)
    ensures Reverse(Reverse(v)) == v
  {
  }

  /** Rotating, reversing and rotating again is one rotation of the reversed ring. */
  lemma {:induction false} FlippedRotation(base: Ring, i: nat, j: nat) returns (k: nat)
    requires i <= |base| && j <= |base|
    ensures k <= |base| && Rotation(Reverse(Rotation(base, i)), j) == Rotation(Reverse(base), k)
  {
    ReverseOfRotation(base, i);
    k := RotationsAdd(Reverse(base), |base| - i, j);
  }

  /** Turning a ring twice is turning it once. */
  lemma {:induction false} TurnTwice(u: Ring, r: bool, i: nat, r': bool, j: nat) returns (k: nat)
    requires i <= |u| && j <= |u|
    ensures k <= |u| && Turn(Turn(u, r, i), r', j) == Turn(u, r != r', k)
  {
    var base := if r then Reverse(u) else u;
    if r' {
      k := FlippedRotation(base, i, j);
      ReverseTwice(u);
    } else {
      k := RotationsAdd(base, i, j);
    }
  }

  lemma {:induction false} RotationsAdd(v: Ring, i: nat, j: nat) returns (k: nat)
    requires i <= |v| && j <= |v|
    ensures k <= |v| && Rotation(Rotation(v, i), j) == Rotation(v, k)
  {
    RotationTwice(v, i, j);
    k := if i + j <= |v| then i + j else i + j - |v|;
  }

  lemma FullRotation(u: Ring, i: nat)
    requires i <= |u|
    ensures Rotation(Rotation(u, i), |u| - i) == u
  {
    RotationTwice(u, i, |u| - i);
    assert Rotation(u, |u|) == u;
  }

  lemma FlipBack(u: Ring, i: nat)
    requires i <= |u|
    ensures Rotation(Reverse(Rotation(Reverse(u), i)), i) == u
  {
    ReverseOfRotation(Reverse(u), i);
    ReverseTwice(u);
    FullRotation(u, |u| - i);
  }

  /** Every turn can be undone. */
  lemma TurnBack(u: Ring, r: bool, i: nat)
    requires i <= |u|
    ensures Turn(Turn(u, r, i), r, if r then i else |u| - i) == u
  {
    FlipBack(u, i);
    FullRotation(u, i);
  }

  lemma SameCycleReflexive(v: Ring)
    ensures SameCycle(v, v)
  {
    assert v == Turn(v, false, 0);
  }

  lemma {:induction false} SameCycleSymmetric(u: Ring, v: Ring)
    requires SameCycle(u, v)
    ensures SameCycle(v, u)
  {
    var r, i: nat :| i <= |u| && v == Turn(u, r, i);
    TurnBack(u, r, i);
  }

  lemma {:induction false} SameCycleTransitive(u: Ring, v: Ring, w: Ring)
    requires SameCycle(u, v) && SameCycle(v, w)
    ensures SameCycle(u, w)
  {
    var r, i: nat :| i <= |u| && v == Turn(u, r, i);
    var r', j: nat :| j <= |v| && w == Turn(v, r', j);
    var k := TurnTwice(u, r, i, r', j);
  }

  lemma {:induction false} FlattenInjective(u: Ring, v: Ring)
    requires Flatten(u) == Flatten(v)
    ensures u == v
  {
    if u == [] || v == [] {
    } else {
      var fu, fv := Flatten(u), Flatten(v);
      assert fu[0] == u[0].x && fu[1] == u[0].y && fv[0] == v[0].x && fv[1] == v[0].y;
      assert Flatten(u[1..]) == fu[2..] && Flatten(v[1..]) == fv[2..];
      FlattenInjective(u[1..], v[1..]);
      assert u == [u[0]] + u[1..] && v == [v[0]] + v[1..];
    }
  }

  lemma LeastIsLeast(cs: seq<Ring>)
    requires cs != []
    ensures Least(cs) in cs && forall c :: c in cs ==> RingLe(Least(cs), c)
  {
    if |cs| == 1 {
      Lex.Reflexive(Flatten(cs[0]));
    } else {
      var m := Least(cs[1..]);
      LeastIsLeast(cs[1..]);
      Lex.Total(Flatten(cs[0]), Flatten(m));
      Lex.Reflexive(Flatten(cs[0]));
      forall c | c in cs ensures RingLe(Least(cs), c) {
        if c != cs[0] {
          assert c in cs[1..];
          if RingLe(cs[0], m) {
            Lex.Transitive(Flatten(cs[0]), Flatten(m), Flatten(c));
          }
        }
      }
    }
  }

  lemma InRotations(v: Ring, c: Ring)
    requires v != []
    ensures c in Rotations(v) <==> exists i: nat :: i <= |v| && c == Rotation(v, i)
  {
    if c in Rotations(v) {
      var k: nat :| k < |v| && Rotations(v)[k] == c;
    }
    if i: nat :| i <= |v| && c == Rotation(v, i) {
      assert Rotation(v, |v|) == Rotation(v, 0);
      var k := if i == |v| then 0 else i;
      assert Rotations(v)[k] == c;
    }
  }

  lemma InCandidates(v: Ring, c: Ring)
    requires v != []
    ensures c in Rotations(v) + Rotations(Reverse(v)) <==> SameCycle(v, c)
  {
    InRotations(v, c);
    InRotations(Reverse(v), c);
    if c in Rotations(v) {
      var i: nat :| i <= |v| && c == Rotation(v, i);
      assert c == Turn(v, false, i);
    }
    if c in Rotations(Reverse(v)) {
      var i: nat :| i <= |v| && c == Rotation(Reverse(v), i);
      assert c == Turn(v, true, i);
    }
  }

  /** The normal form is the least ring on the same cycle. */
  lemma NormalFormIsLeast(v: Ring)
    ensures SameCycle(OpenRing(v), NormalizedRing(v))
    ensures forall c :: SameCycle(OpenRing(v), c) ==> RingLe(NormalizedRing(v), c)
  {
    var o := OpenRing(v);
    if o == [] {
      SameCycleReflexive(o);
    } else {
      LeastIsLeast(Rotations(o) + Rotations(Reverse(o)));
      forall c { InCandidates(o, c); }
    }
  }

  /** Two rings have one normal form exactly when they are the same cycle, whatever their vertices. */
  lemma NormalFormCanonical(u: Ring, v: Ring)
    ensures NormalizedRing(u) == NormalizedRing(v) <==> SameCycle(OpenRing(u), OpenRing(v))
  {
    var ou, ov, nu, nv := OpenRing(u), OpenRing(v), NormalizedRing(u), NormalizedRing(v);
    NormalFormIsLeast(u);
    NormalFormIsLeast(v);
    if nu == nv {
      SameCycleSymmetric(ov, nv);
      SameCycleTransitive(ou, nu, ov);
    }
    if SameCycle(ou, ov) {
      SameCycleTransitive(ou, ov, nv);
      SameCycleSymmetric(ou, ov);
      SameCycleTransitive(ov, ou, nu);
      Lex.Antisymmetric(Flatten(nu), Flatten(nv));
      FlattenInjective(nu, nv);
    }
  }

  // ---------- Exactly when normalising twice changes nothing ----------

  predicate PointLe(p: Point, q: Point) {
    p.x < q.x || (p.x == q.x && p.y <= q.y)
  }

  ghost predicate Constant(o: Ring) {
    |o| >= 2 && forall i :: 0 <= i < |o| ==> o[i] == o[0]
  }

  lemma RingLeHead(u: Ring, v: Ring)
    requires u != [] && v != [] && RingLe(u, v)
    ensures PointLe(u[0], v[0])
    ensures u[0] == v[0] ==> RingLe(u[1..], v[1..])
  {
    var fu, fv := Flatten(u), Flatten(v);
    assert fu[1..][1..] == Flatten(u[1..]) && fv[1..][1..] == Flatten(v[1..]);
    assert fu[0] == fv[0] ==> Lex.Le(fu[1..], fv[1..]);
    assert fu[1..][0] == u[0].y && fv[1..][0] == v[0].y;
  }

  lemma {:induction false} RingLeAt(u: Ring, v: Ring, k: nat)
    requires |u| == |v| && k < |u| && RingLe(u, v)
    requires forall i :: 0 <= i < k ==> u[i] == v[i]
    ensures PointLe(u[k], v[k])
    decreases k
  {
    RingLeHead(u, v);
    if k > 0 {
      RingLeAt(u[1..], v[1..], k - 1);
    }
  }

  lemma {:induction false} ClosedNormalFormPrefix(v: Ring, k: nat)
    requires var n := NormalizedRing(v); |n| > 1 && n[0] == n[|n| - 1] && k < |n|
    ensures forall i :: 0 <= i <= k ==> NormalizedRing(v)[i] == NormalizedRing(v)[0]
  {
    var n := NormalizedRing(v);
    if k > 0 {
      ClosedNormalFormPrefix(v, k - 1);
      NormalFormIsLeast(v);
      var shifted, atK := Turn(n, false, |n| - 1), Turn(n, false, k);
      assert SameCycle(n, shifted) && SameCycle(n, atK);
      SameCycleTransitive(OpenRing(v), n, shifted);
      SameCycleTransitive(OpenRing(v), n, atK);
      forall i | 0 <= i < |n| ensures shifted[i] == if i == 0 then n[|n| - 1] else n[i - 1] {
        RotationAt(n, |n| - 1, i);
      }
      RingLeAt(n, shifted, k);
      assert atK[0] == n[k];
      RingLeHead(n, atK);
    }
  }

  lemma {:induction false} ConstantTurns(o: Ring, c: Ring)
    requires SameCycle(o, c)
    ensures |c| == |o| && (Constant(c) ==> Constant(o))
  {
    var r, i: nat :| i <= |o| && c == Turn(o, r, i);
    TurnBack(o, r, i);
    if Constant(c) {
      var back := if r then Reverse(c) else c;
      assert forall m :: 0 <= m < |c| ==> back[m] == c[0];
      assert forall m :: 0 <= m < |c| ==> o[m] == c[0];
    }
  }

  /**
   Normalising is idempotent exactly on rings whose opened form is not one point repeated;
   in particular on every ring with distinct opened vertices.
   */
  lemma {:induction false} NormalFormIdempotentExactly(v: Ring)
    ensures NormalizedRing(NormalizedRing(v)) == NormalizedRing(v) <==> !Constant(OpenRing(v))
  {
    var o, n := OpenRing(v), NormalizedRing(v);
    NormalFormIsLeast(v);
    NormalFormIsLeast(n);
    ConstantTurns(o, n);
    SameCycleSymmetric(o, n);
    ConstantTurns(n, o);
    if |n| > 1 && n[0] == n[|n| - 1] {
      ClosedNormalFormPrefix(v, |n| - 1);
      assert Constant(n);
      ConstantTurns(OpenRing(n), NormalizedRing(n));
    } else {
      assert OpenRing(n) == n;
      NormalFormCanonical(n, v);
    }
  }

  /** So on a vertex repeated three times the second pass drops one more vertex. */
  lemma RepeatedVertexChanges(p: Point)
    ensures NormalizedRing(NormalizedRing([p, p, p])) != NormalizedRing([p, p, p])
  {
    assert OpenRing([p, p, p]) == [p, p];
    NormalFormIdempotentExactly([p, p, p]);
  }

  lemma OpenedNormalForm(v: Ring)
    requires |OpenRing(v)| >= 1 && !Constant(OpenRing(v))
    ensures OpenRing(NormalizedRing(v)) == NormalizedRing(v)
  {
    NormalFormIdempotentExactly(v);
    NormalFormIsLeast(v);
    NormalFormIsLeast(NormalizedRing(v));
    ConstantTurns(OpenRing(NormalizedRing(v)), NormalizedRing(NormalizedRing(v)));
  }
}
