/**
 What a valid graph guarantees about the drawing (backend/design_kernel/model.py:1063-1113):
 where wires of different nets may meet.
 */
module Crossings {
  import opened Sorting
  import opened Lex
  import opened Geometry
  import opened Wiring
  import opened Graph

  lemma DifferentWireIds(wires: seq<Wire>, u: Wire, v: Wire)
    requires UniqueKeys(wires, WireKey) && u in wires && v in wires && u != v
    ensures u.id != v.id
  {
    var i :| 0 <= i < |wires| && wires[i] == u;
    var j :| 0 <= j < |wires| && wires[j] == v;
    assert WireKey(wires[i]) != WireKey(wires[j]);
  }

  /**
   In a valid graph two wires of different nets on one sheet have at most one common point on
   any two of their segments, and it is an end of neither.
   */
  lemma NetsMeetOnlyInside(g: Graph, u: Wire, v: Wire, i: nat, j: nat, p: RealPoint, q: RealPoint)
    requires WfWire(u) && WfWire(v) && WirePairsOk(g.wires) && UniqueKeys(g.wires, WireKey)
    requires u in g.wires && v in g.wires && u.sheetId == v.sheetId && u.netId != v.netId
    requires i + 1 < |u.vertices| && j + 1 < |v.vertices|
    requires Shared(p, u.vertices[i], u.vertices[i + 1], v.vertices[j], v.vertices[j + 1])
    requires Shared(q, u.vertices[i], u.vertices[i + 1], v.vertices[j], v.vertices[j + 1])
    ensures p == q
    ensures Interior(p, u.vertices[i], u.vertices[i + 1]) && Interior(p, v.vertices[j], v.vertices[j + 1])
  {
    DifferentWireIds(g.wires, u, v);
    assert WirePairOk(u, v);
    assert SegmentPairClear(u.vertices[i], u.vertices[i + 1], v.vertices[j], v.vertices[j + 1], false);
    DifferentNetsCrossInside(u.vertices[i], u.vertices[i + 1], v.vertices[j], v.vertices[j + 1], p, q);
  }

  /** The same for any graph that `validate_graph` accepts. */
  lemma ValidGraphNetsMeetOnlyInside(g: Graph, u: Wire, v: Wire, i: nat, j: nat, p: RealPoint, q: RealPoint)
    requires WfGraph(g) && Valid(g)
    requires u in g.wires && v in g.wires && u.sheetId == v.sheetId && u.netId != v.netId
    requires i + 1 < |u.vertices| && j + 1 < |v.vertices|
    requires Shared(p, u.vertices[i], u.vertices[i + 1], v.vertices[j], v.vertices[j + 1])
    requires Shared(q, u.vertices[i], u.vertices[i + 1], v.vertices[j], v.vertices[j + 1])
    ensures p == q
    ensures Interior(p, u.vertices[i], u.vertices[i + 1]) && Interior(p, v.vertices[j], v.vertices[j + 1])
  {
    NetsMeetOnlyInside(g, u, v, i, j, p, q);
  }
}
