/**
 Lexicographic order on integer sequences, the order Python uses for strings (by code
 point) and for tuples of coordinates.  Every sort key of the design graph is one `Key`.
 */
module Lex {

  type Key = seq<int>

  predicate Le(a: Key, b: Key) {
    a == [] || (b != [] && (a[0] < b[0] || (a[0] == b[0] && Le(a[1..], b[1..]))))
  }

  predicate Lt(a: Key, b: Key) {
    Le(a, b) && a != b
  }

  lemma Reflexive(a: Key)
    ensures Le(a, a)
  {
  }

  lemma Total(a: Key, b: Key)
    ensures Le(a, b) || Le(b, a)
  {
  }

  lemma {:induction false} Antisymmetric(a: Key, b: Key)
    requires Le(a, b) && Le(b, a)
    ensures a == b
  {
    if a == [] || b == [] {
    } else {
      Antisymmetric(a[1..], b[1..]);
      assert a == [a[0]] + a[1..] && b == [b[0]] + b[1..];
    }
  }

  lemma Transitive(a: Key, b: Key, c: Key)
    requires Le(a, b) && Le(b, c)
    ensures Le(a, c)
  {
  }

  lemma LtTransitive(a: Key, b: Key, c: Key)
    requires Lt(a, b) && Lt(b, c)
    ensures Lt(a, c)
  {
    Transitive(a, b, c);
    if a == c {
      Antisymmetric(a, b);
    }
  }

  /** Code points of a string: Python compares strings by these. */
  function Codes(s: string): (k: Key)
    ensures |k| == |s| && forall i :: 0 <= i < |s| ==> k[i] == s[i] as int
  {
    seq(|s|, i requires 0 <= i < |s| => s[i] as int)
  }

  lemma CodesInjective(s: string, t: string)
    requires Codes(s) == Codes(t)
    ensures s == t
  {
    assert forall i :: 0 <= i < |s| ==> s[i] as int == Codes(s)[i] == Codes(t)[i] == t[i] as int;
  }
}
