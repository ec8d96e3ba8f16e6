/**
 Normalisation is canonical: two graphs with distinct identifiers have one canonical form
 exactly when they differ only in the order of collections, pins, members and layers, in the
 direction of tracks and wires, in the start and direction of rings, and in half turns of drills.
 */
module Canonical {
  import opened Lex
  import opened Sorting
  import opened Geometry
  import opened Ring
  import opened Polygon
  import opened Wiring
  import opened Graph
  import opened Mirror
  import opened Normalization

  // ---------- Records that differ only in order or direction ----------

  ghost predicate SameTurn(a: int, b: int) { a == b || a - b == HALF_TURN || b - a == HALF_TURN }

  ghost predicate SameComponent(c: Component, d: Component) {
    d == c.(pins := d.pins) && multiset(c.pins) == multiset(d.pins)
  }
  ghost predicate SameNet(n: Net, m: Net) {
    m == n.(members := m.members) && multiset(n.members) == multiset(m.members)
  }
  ghost predicate SamePlacement(p: Placement, q: Placement) { p == q }
  ghost predicate SameTrack(t: Track, u: Track) { u == t || u == t.(start := t.end, end := t.start) }
  ghost predicate SamePad(p: Pad, q: Pad) {
    && q == p.(layers := q.layers, drillRotation := q.drillRotation)
    && multiset(p.layers) == multiset(q.layers)
    && SameTurn(p.drillRotation, q.drillRotation)
  }
  ghost predicate SameHole(h: Hole, k: Hole) {
    k == h.(drillRotation := k.drillRotation) && SameTurn(h.drillRotation, k.drillRotation)
  }
  ghost predicate SameVia(v: Via, w: Via) {
    w == v.(layers := w.layers) && multiset(v.layers) == multiset(w.layers)
  }
  ghost predicate SameZone(y: Zone, z: Zone) {
    z == y.(outline := z.outline) && SameCycle(OpenRing(y.outline), OpenRing(z.outline))
  }
  ghost predicate SameWire(w: Wire, x: Wire) {
    x == w.(vertices := x.vertices) && (x.vertices == w.vertices || x.vertices == Reverse(w.vertices))
  }
  ghost predicate SameJunction(j: Junction, k: Junction) { j == k }

  lemma SortedAlike<T(!new)>(xs: seq<T>, ys: seq<T>, key: T -> Key)
    requires UniqueKeys(xs, key) && UniqueKeys(ys, key)
    ensures SortBy(xs, key) == SortBy(ys, key) <==> multiset(xs) == multiset(ys)
  {
    SortMultiset(xs, key);
    SortMultiset(ys, key);
    if multiset(xs) == multiset(ys) {
      MultisetElements(xs, ys);
      SortDetermined(xs, ys, key);
    }
  }

  lemma SameComponentExactly(c: Component, d: Component)
    requires WfComponent(c) && WfComponent(d)
    ensures SameComponent(c, d) <==> NormComponent(c) == NormComponent(d)
  {
    SortedAlike(c.pins, d.pins, PinKey);
  }

  lemma SameNetExactly(n: Net, m: Net)
    requires WfNet(n) && WfNet(m)
    ensures SameNet(n, m) <==> NormNet(n) == NormNet(m)
  {
    MembersUnique(n.members);
    MembersUnique(m.members);
    SortedAlike(n.members, m.members, MemberKey);
  }

  lemma SameTrackExactly(t: Track, u: Track)
    ensures SameTrack(t, u) <==> NormTrack(t) == NormTrack(u)
  {
  }

  lemma SameTurnExactly(x: int, y: int, a: int, b: int)
    requires Angle(a) && Angle(b)
    requires x == y ==> (a == 0 || a == HALF_TURN) && (b == 0 || b == HALF_TURN)
    ensures SameTurn(a, b) <==> NormRotation(x, y, a) == NormRotation(x, y, b)
  {
  }

  lemma SameLayers(xs: seq<string>, ys: seq<string>)
    requires NoRepeat(xs) && NoRepeat(ys)
    ensures SortBy(xs, LayerKey) == SortBy(ys, LayerKey) <==> multiset(xs) == multiset(ys)
  {
    NoRepeatUnique(xs);
    NoRepeatUnique(ys);
    SortedAlike(xs, ys, LayerKey);
  }

  lemma SamePadExactly(p: Pad, q: Pad)
    requires WfPad(p) && WfPad(q)
    ensures SamePad(p, q) <==> NormPad(p) == NormPad(q)
  {
    SameLayers(p.layers, q.layers);
    if p.drillX == q.drillX && p.drillY == q.drillY {
      SameTurnExactly(p.drillX, p.drillY, p.drillRotation, q.drillRotation);
    }
  }

  lemma SameHoleExactly(h: Hole, k: Hole)
    requires WfHole(h) && WfHole(k)
    ensures SameHole(h, k) <==> NormHole(h) == NormHole(k)
  {
    if h.drillX == k.drillX && h.drillY == k.drillY {
      SameTurnExactly(h.drillX, h.drillY, h.drillRotation, k.drillRotation);
    }
  }

  lemma SameViaExactly(v: Via, w: Via)
    requires WfVia(v) && WfVia(w)
    ensures SameVia(v, w) <==> NormVia(v) == NormVia(w)
  {
    SameLayers(v.layers, w.layers);
  }

  lemma SameZoneExactly(y: Zone, z: Zone)
    ensures SameZone(y, z) <==> NormZone(y) == NormZone(z)
  {
    NormalFormCanonical(y.outline, z.outline);
  }

  lemma SameWireExactly(w: Wire, x: Wire)
    ensures SameWire(w, x) <==> NormWire(w) == NormWire(x)
  {
    PathTwice(w.vertices);
    PathTwice(x.vertices);
    ReverseTwice(w.vertices);
    ReverseTwice(x.vertices);
  }

  // ---------- Collections ----------

  ghost predicate Covered<T(!new)>(xs: seq<T>, ys: seq<T>, same: (T, T) -> bool) {
    forall x :: x in xs ==> exists y :: y in ys && same(x, y)
  }

  ghost predicate Covering<T(!new)>(xs: seq<T>, ys: seq<T>, same: (T, T) -> bool) {
    forall y :: y in ys ==> exists x :: x in xs && same(x, y)
  }

  ghost predicate Rearranged<T(!new)>(xs: seq<T>, ys: seq<T>, same: (T, T) -> bool) {
    |xs| == |ys| && Covered(xs, ys, same) && Covering(xs, ys, same)
  }

  lemma CanonExactly<T(!new)>(xs: seq<T>, ys: seq<T>, norm: T -> T, key: T -> Key, same: (T, T) -> bool)
    requires UniqueKeys(xs, key) && UniqueKeys(ys, key)
    requires forall x :: x in xs || x in ys ==> key(norm(x)) == key(x)
    requires forall x, y :: x in xs && y in ys ==> (same(x, y) <==> norm(x) == norm(y))
    ensures Canon(xs, norm, key) == Canon(ys, norm, key) <==> Rearranged(xs, ys, same)
  {
    CanonMirrors(xs, norm, key);
    CanonMirrors(ys, norm, key);
    if Canon(xs, norm, key) == Canon(ys, norm, key) {
      SortElements(MapSeq(xs, norm), key);
      SortElements(MapSeq(ys, norm), key);
      assert |xs| == |Canon(xs, norm, key)| == |ys|;
      forall x | x in xs ensures exists y :: y in ys && same(x, y) {
        var y :| y in ys && norm(x) == norm(y);
      }
      forall y | y in ys ensures exists x :: x in xs && same(x, y) {
        var x :| x in xs && norm(y) == norm(x);
      }
    }
    if Rearranged(xs, ys, same) {
      CanonAscending(xs, norm, key);
      CanonAscending(ys, norm, key);
      AscendingDetermined(Canon(xs, norm, key), Canon(ys, norm, key), key);
    }
  }

  ghost predicate Equivalent(g: Graph, h: Graph) {
    && g.schemaVersion == h.schemaVersion && g.projectId == h.projectId
    && multiset(g.layers) == multiset(h.layers)
    && SameCycle(OpenRing(g.outline), OpenRing(h.outline))
    && Rearranged(g.components, h.components, SameComponent) && Rearranged(g.nets, h.nets, SameNet)
    && Rearranged(g.placements, h.placements, SamePlacement) && Rearranged(g.tracks, h.tracks, SameTrack)
    && Rearranged(g.pads, h.pads, SamePad) && Rearranged(g.holes, h.holes, SameHole)
    && Rearranged(g.vias, h.vias, SameVia) && Rearranged(g.zones, h.zones, SameZone)
    && Rearranged(g.wires, h.wires, SameWire) && Rearranged(g.junctions, h.junctions, SameJunction)
  }

  lemma CircuitExactly(g: Graph, h: Graph)
    requires WfGraph(g) && WfGraph(h) && IdsUnique(g) && IdsUnique(h)
    ensures Normalize(g).components == Normalize(h).components <==> Rearranged(g.components, h.components, SameComponent)
    ensures Normalize(g).nets == Normalize(h).nets <==> Rearranged(g.nets, h.nets, SameNet)
    ensures Normalize(g).placements == Normalize(h).placements <==> Rearranged(g.placements, h.placements, SamePlacement)
    ensures Normalize(g).tracks == Normalize(h).tracks <==> Rearranged(g.tracks, h.tracks, SameTrack)
  {
    forall c, d | c in g.components && d in h.components { SameComponentExactly(c, d); }
    CanonExactly(g.components, h.components, NormComponent, ComponentKey, SameComponent);
    forall c, d | c in g.nets && d in h.nets { SameNetExactly(c, d); }
    CanonExactly(g.nets, h.nets, NormNet, NetKey, SameNet);
    CanonExactly(g.placements, h.placements, NormPlacement, PlacementKey, SamePlacement);
    forall c, d | c in g.tracks && d in h.tracks { SameTrackExactly(c, d); }
    CanonExactly(g.tracks, h.tracks, NormTrack, TrackKey, SameTrack);
  }

  lemma CopperExactly(g: Graph, h: Graph)
    requires WfGraph(g) && WfGraph(h) && IdsUnique(g) && IdsUnique(h)
    ensures Normalize(g).pads == Normalize(h).pads <==> Rearranged(g.pads, h.pads, SamePad)
    ensures Normalize(g).holes == Normalize(h).holes <==> Rearranged(g.holes, h.holes, SameHole)
    ensures Normalize(g).vias == Normalize(h).vias <==> Rearranged(g.vias, h.vias, SameVia)
  {
    forall c, d | c in g.pads && d in h.pads { SamePadExactly(c, d); }
    CanonExactly(g.pads, h.pads, NormPad, PadKey, SamePad);
    forall c, d | c in g.holes && d in h.holes { SameHoleExactly(c, d); }
    CanonExactly(g.holes, h.holes, NormHole, HoleKey, SameHole);
    forall c, d | c in g.vias && d in h.vias { SameViaExactly(c, d); }
    CanonExactly(g.vias, h.vias, NormVia, ViaKey, SameVia);
  }

  lemma SheetExactly(g: Graph, h: Graph)
    requires WfGraph(g) && WfGraph(h) && IdsUnique(g) && IdsUnique(h)
    ensures Normalize(g).zones == Normalize(h).zones <==> Rearranged(g.zones, h.zones, SameZone)
    ensures Normalize(g).wires == Normalize(h).wires <==> Rearranged(g.wires, h.wires, SameWire)
    ensures Normalize(g).junctions == Normalize(h).junctions <==> Rearranged(g.junctions, h.junctions, SameJunction)
  {
    forall c, d | c in g.zones && d in h.zones { SameZoneExactly(c, d); }
    CanonExactly(g.zones, h.zones, NormZone, ZoneKey, SameZone);
    forall c, d | c in g.wires && d in h.wires { SameWireExactly(c, d); }
    CanonExactly(g.wires, h.wires, NormWire, WireKey, SameWire);
    CanonExactly(g.junctions, h.junctions, NormJunction, JunctionKey, SameJunction);
  }

  /** One canonical form exactly for graphs that differ only in order and direction. */
  lemma NormalizeCanonical(g: Graph, h: Graph)
    requires WfGraph(g) && WfGraph(h) && IdsUnique(g) && IdsUnique(h)
    requires UniqueKeys(g.layers, LayerKey) && UniqueKeys(h.layers, LayerKey)
    ensures Normalize(g) == Normalize(h) <==> Equivalent(g, h)
  {
    CircuitExactly(g, h);
    CopperExactly(g, h);
    SheetExactly(g, h);
    SortedAlike(g.layers, h.layers, LayerKey);
    NormalFormCanonical(g.outline, h.outline);
  }

  lemma CoveredUnique<T(!new)>(xs: seq<T>, ys: seq<T>, same: (T, T) -> bool, key: T -> Key)
    requires UniqueKeys(xs, key) && |xs| == |ys| && Covered(xs, ys, same)
    requires forall x, y :: same(x, y) ==> key(x) == key(y)
    ensures UniqueKeys(ys, key)
  {
    forall x | x in xs ensures exists y :: y in ys && key(y) == key(x) {
      var y :| y in ys && same(x, y);
    }
    SameKeysUnique(xs, ys, key);
  }

  lemma EquivalentIds(g: Graph, h: Graph)
    requires IdsUnique(g) && Equivalent(g, h)
    ensures IdsUnique(h)
  {
    CoveredUnique(g.components, h.components, SameComponent, ComponentKey);
    CoveredUnique(g.components, h.components, SameComponent, ReferenceKey);
    CoveredUnique(g.nets, h.nets, SameNet, NetKey);
    CoveredUnique(g.nets, h.nets, SameNet, NetNameKey);
    CoveredUnique(g.placements, h.placements, SamePlacement, PlacementKey);
    CoveredUnique(g.tracks, h.tracks, SameTrack, TrackKey);
    CoveredUnique(g.pads, h.pads, SamePad, PadKey);
    CoveredUnique(g.holes, h.holes, SameHole, HoleKey);
    CoveredUnique(g.vias, h.vias, SameVia, ViaKey);
    CoveredUnique(g.zones, h.zones, SameZone, ZoneKey);
    CoveredUnique(g.wires, h.wires, SameWire, WireKey);
    CoveredUnique(g.junctions, h.junctions, SameJunction, JunctionKey);
  }

  lemma EquivalentLayers(xs: seq<string>, ys: seq<string>)
    requires UniqueKeys(xs, LayerKey) && multiset(xs) == multiset(ys)
    ensures UniqueKeys(ys, LayerKey)
  {
    MultisetElements(xs, ys);
    assert |xs| == |multiset(xs)| == |multiset(ys)| == |ys|;
    SameKeysUnique(xs, ys, LayerKey);
  }

  /** Hence rearranging a valid graph keeps it valid and keeps its canonical form. */
  lemma EquivalentValid(g: Graph, h: Graph)
    requires WfGraph(g) && WfGraph(h) && Valid(g) && Equivalent(g, h)
    ensures Valid(h) && Normalize(h) == Normalize(g)
  {
    EquivalentIds(g, h);
    EquivalentLayers(g.layers, h.layers);
    NormalizeCanonical(g, h);
    NormalizeKeepsValidity(g);
    NormalizeKeepsValidity(h);
  }
}
