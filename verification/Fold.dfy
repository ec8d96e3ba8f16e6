/** Running a partial step function over a list: the run fails at the first failing step. */
module Fold {
  import opened Graph

  ghost function Run<S, A>(step: (S, A) -> Option<S>, s: S, acts: seq<A>): Option<S>
    decreases |acts|
  {
    if acts == [] then Some(s)
    else
      match step(s, acts[0])
      case None => None
      case Some(t) => Run(step, t, acts[1..])
  }

  lemma {:induction false} RunJoin<S, A>(step: (S, A) -> Option<S>, s: S, a: seq<A>, b: seq<A>)
    ensures Run(step, s, a + b) ==
      match Run(step, s, a) { case None => None case Some(t) => Run(step, t, b) }
    decreases |a|
  {
    if a == [] {
      assert a + b == b;
    } else {
      assert (a + b)[0] == a[0] && (a + b)[1..] == a[1..] + b;
      if step(s, a[0]).Some? {
        RunJoin(step, step(s, a[0]).value, a[1..], b);
      }
    }
  }

  lemma RunThen<S, A>(step: (S, A) -> Option<S>, s: S, a: seq<A>, t: S, b: seq<A>, u: S)
    requires Run(step, s, a) == Some(t) && Run(step, t, b) == Some(u)
    ensures Run(step, s, a + b) == Some(u)
  {
    RunJoin(step, s, a, b);
  }

  lemma RunOne<S, A>(step: (S, A) -> Option<S>, s: S, x: A, t: S)
    requires step(s, x) == Some(t)
    ensures Run(step, s, [x]) == Some(t)
  {
    assert [x][1..] == [];
  }

  lemma RunSnoc<S, A>(step: (S, A) -> Option<S>, s: S, a: seq<A>, x: A)
    ensures Run(step, s, a + [x]) == match Run(step, s, a) { case None => None case Some(t) => step(t, x) }
  {
    RunJoin(step, s, a, [x]);
    match Run(step, s, a)
    case None =>
    case Some(t) =>
      assert [x][1..] == [];
  }

  /** A chain of steps runs to its last state. */
  lemma {:induction false} RunChain<S, A>(step: (S, A) -> Option<S>, state: nat --> S, acts: seq<A>, i: nat)
    requires i <= |acts| && forall k: nat :: k <= |acts| ==> state.requires(k)
    requires forall k: nat :: k < |acts| ==> step(state(k), acts[k]) == Some(state(k + 1))
    ensures Run(step, state(i), acts[i..]) == Some(state(|acts|))
    decreases |acts| - i
  {
    if i == |acts| {
      assert acts[i..] == [];
    } else {
      assert acts[i..][0] == acts[i] && acts[i..][1..] == acts[i + 1..];
      RunChain(step, state, acts, i + 1);
    }
  }

  /** A list made of pieces, of which `rests[k]` is what is left from piece `k` on, runs piece by piece. */
  lemma {:induction false} RunPieces<S, A>(step: (S, A) -> Option<S>, states: seq<S>, pieces: seq<seq<A>>, rests: seq<seq<A>>, i: nat)
    requires i <= |pieces| && |states| == |pieces| + 1 && |rests| == |pieces| + 1 && rests[|pieces|] == []
    requires forall k: nat, next: nat :: next == k + 1 <= |pieces| ==> rests[k] == pieces[k] + rests[next]
    requires forall k: nat, next: nat :: next == k + 1 <= |pieces| ==> Run(step, states[k], pieces[k]) == Some(states[next])
    ensures Run(step, states[i], rests[i]) == Some(states[|pieces|])
    decreases |pieces| - i
  {
    if i < |pieces| {
      RunPieces(step, states, pieces, rests, i + 1);
      RunThen(step, states[i], pieces[i], states[i + 1], rests[i + 1], states[|pieces|]);
    }
  }

  /** Emitting the items of a list one by one, each as one step, places the whole list. */
  lemma {:induction false} RunAppend<S, A, T>(step: (S, A) -> Option<S>, xs: seq<T>, put: seq<T> -> S, act: T -> A, k: nat)
    requires k <= |xs| && forall i: nat, j: nat :: j == i + 1 <= |xs| ==> step(put(xs[..i]), act(xs[i])) == Some(put(xs[..j]))
    ensures Run(step, put(xs[..k]), MapSeq(xs, act)[k..]) == Some(put(xs))
    decreases |xs| - k
  {
    var acts := MapSeq(xs, act);
    if k == |xs| {
      assert xs[..k] == xs;
    } else {
      assert acts[k..][0] == act(xs[k]) && acts[k..][1..] == acts[k + 1..];
      RunAppend(step, xs, put, act, k + 1);
    }
  }

  /** What every step keeps, every run keeps. */
  lemma {:induction false} RunKeeps<S(!new), A(!new)>(step: (S, A) -> Option<S>, inv: S -> bool, s: S, acts: seq<A>)
    requires inv(s) && forall t, a :: inv(t) && step(t, a).Some? ==> inv(step(t, a).value)
    requires Run(step, s, acts).Some?
    ensures inv(Run(step, s, acts).value)
    decreases |acts|
  {
    if acts != [] {
      RunKeeps(step, inv, step(s, acts[0]).value, acts[1..]);
    }
  }
}
