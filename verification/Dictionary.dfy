/** Dictionaries built from lists, as Python's `{key(item): item for item in items}`: the last entry wins. */
module Dictionary {
  import opened Graph

  /** The entry a dictionary built from the list holds for `x`: the last one wins. */
  function FindBy<T, K(==)>(items: seq<T>, id: T -> K, x: K): (r: Option<T>)
    ensures r.Some? ==> r.value in items && id(r.value) == x
    ensures r.None? ==> forall y :: y in items ==> id(y) != x
  {
    if items == [] then None
    else if id(items[|items| - 1]) == x then Some(items[|items| - 1])
    else FindBy(items[..|items| - 1], id, x)
  }

  method IndexItems<T(!new), K(==, !new)>(items: seq<T>, id: T -> K) returns (m: map<K, T>)
    ensures forall x :: FindBy(items, id, x) == if x in m then Some(m[x]) else None
  {
    m := map[];
    var i := 0;
    while i < |items|
      invariant 0 <= i <= |items|
      invariant forall x :: FindBy(items[..i], id, x) == if x in m then Some(m[x]) else None
    {
      assert items[..i + 1][..i] == items[..i];
      m := m[id(items[i]) := items[i]];
      i := i + 1;
    }
    assert items[..i] == items;
  }
}
