/**
 The canonical form of a graph (backend/design_kernel/model.py:835-875): it keeps the
 constructor conditions, keeps validity in both directions, is idempotent on valid graphs,
 and is the same for two graphs exactly when they differ only in order and direction.
 */
module Normalization {
  import opened Lex
  import opened Sorting
  import opened Geometry
  import opened Ring
  import opened Polygon
  import opened Wiring
  import opened Graph
  import opened Mirror

  // ---------- Canonical collections ----------

  lemma CanonMirrors<T(!new)>(xs: seq<T>, norm: T -> T, key: T -> Key)
    ensures Mirrors(xs, Canon(xs, norm, key), norm)
  {
    var ys := MapSeq(xs, norm);
    SortElements(ys, key);
    forall x | x in xs ensures norm(x) in Canon(xs, norm, key) {
      var i :| 0 <= i < |xs| && xs[i] == x;
      assert ys[i] == norm(x);
    }
    forall y | y in Canon(xs, norm, key) ensures exists x :: x in xs && y == norm(x) {
      var i :| 0 <= i < |ys| && ys[i] == y;
      assert xs[i] in xs;
    }
  }

  lemma CanonUnique<T(!new)>(xs: seq<T>, norm: T -> T, key: T -> Key, other: T -> Key)
    requires forall x :: x in xs ==> other(norm(x)) == other(x)
    ensures UniqueKeys(Canon(xs, norm, key), other) <==> UniqueKeys(xs, other)
  {
    var ys := MapSeq(xs, norm);
    SortUnique(ys, key, other);
    forall i | 0 <= i < |xs| ensures other(ys[i]) == other(xs[i]) {
      assert xs[i] in xs;
    }
  }

  lemma CanonAscending<T(!new)>(xs: seq<T>, norm: T -> T, key: T -> Key)
    requires forall x :: x in xs ==> key(norm(x)) == key(x)
    requires UniqueKeys(xs, key)
    ensures Ascending(Canon(xs, norm, key), key)
  {
    CanonUnique(xs, norm, key, key);
    SortUnique(MapSeq(xs, norm), key, key);
    SortAscending(MapSeq(xs, norm), key);
  }

  /** A collection is its own canonical form when it is ascending and its records are canonical. */
  lemma CanonFixed<T(!new)>(xs: seq<T>, norm: T -> T, key: T -> Key)
    requires Ascending(xs, key) && forall x :: x in xs ==> norm(x) == x
    ensures Canon(xs, norm, key) == xs
  {
    assert MapSeq(xs, norm) == xs by {
      assert forall i :: 0 <= i < |xs| ==> xs[i] in xs;
    }
    SortOfAscending(xs, key);
  }

  lemma CanonTwice<T(!new)>(xs: seq<T>, norm: T -> T, key: T -> Key)
    requires forall x :: x in xs ==> key(norm(x)) == key(x) && norm(norm(x)) == norm(x)
    requires UniqueKeys(xs, key)
    ensures Canon(Canon(xs, norm, key), norm, key) == Canon(xs, norm, key)
  {
    CanonAscending(xs, norm, key);
    CanonMirrors(xs, norm, key);
    CanonFixed(Canon(xs, norm, key), norm, key);
  }

  // ---------- Canonical records ----------

  lemma ComponentTwice(c: Component)
    requires WfComponent(c)
    ensures NormComponent(NormComponent(c)) == NormComponent(c) && WfComponent(NormComponent(c))
  {
    SortElements(c.pins, PinKey);
    SortUnique(c.pins, PinKey, PinKey);
    SortUnique(c.pins, PinKey, PadNumberKey);
    SortAscending(c.pins, PinKey);
    SortOfAscending(SortBy(c.pins, PinKey), PinKey);
  }

  lemma MemberKeyInjective(m: PinRef, n: PinRef)
    requires MemberKey(m) == MemberKey(n)
    ensures m == n
  {
    var a, b := Codes(m.componentId), Codes(n.componentId);
    var k, l := MemberKey(m), MemberKey(n);
    assert k[|a|] == -1 && l[|b|] == -1;
    assert forall i :: 0 <= i < |a| ==> k[i] == a[i] >= 0;
    assert forall i :: 0 <= i < |b| ==> l[i] == b[i] >= 0;
    assert |a| == |b|;
    assert k[..|a|] == a && l[..|b|] == b;
    assert k[|a| + 1..] == Codes(m.pin) && l[|b| + 1..] == Codes(n.pin);
    CodesInjective(m.componentId, n.componentId);
    CodesInjective(m.pin, n.pin);
  }

  lemma MembersUnique(members: seq<PinRef>)
    ensures NoRepeat(members) <==> UniqueKeys(members, MemberKey)
  {
    if NoRepeat(members) {
      forall i, j | 0 <= i < j < |members| ensures MemberKey(members[i]) != MemberKey(members[j]) {
        if MemberKey(members[i]) == MemberKey(members[j]) { MemberKeyInjective(members[i], members[j]); }
      }
    }
    if UniqueKeys(members, MemberKey) {
      forall i, j | 0 <= i < j < |members| ensures members[i] != members[j] {
        assert MemberKey(members[i]) != MemberKey(members[j]);
      }
    }
  }

  lemma NetTwice(n: Net)
    requires WfNet(n)
    ensures NormNet(NormNet(n)) == NormNet(n) && WfNet(NormNet(n))
  {
    MembersUnique(n.members);
    SortUnique(n.members, MemberKey, MemberKey);
    MembersUnique(NormNet(n).members);
    SortAscending(n.members, MemberKey);
    SortOfAscending(SortBy(n.members, MemberKey), MemberKey);
  }

  lemma TrackTwice(t: Track)
    ensures NormTrack(NormTrack(t)) == NormTrack(t) && (WfTrack(t) ==> WfTrack(NormTrack(t)))
  {
  }

  lemma LayersTwice(layers: seq<string>)
    requires NoRepeat(layers)
    ensures SortBy(SortBy(layers, LayerKey), LayerKey) == SortBy(layers, LayerKey)
    ensures NoRepeat(SortBy(layers, LayerKey)) && |SortBy(layers, LayerKey)| == |layers|
  {
    NoRepeatUnique(layers);
    SortAscending(layers, LayerKey);
    SortOfAscending(SortBy(layers, LayerKey), LayerKey);
    SortUnique(layers, LayerKey, LayerKey);
    NoRepeatUnique(SortBy(layers, LayerKey));
    SortElements(layers, LayerKey);
  }

  lemma PadTwice(p: Pad)
    requires WfPad(p)
    ensures NormPad(NormPad(p)) == NormPad(p) && WfPad(NormPad(p))
  {
    LayersTwice(p.layers);
    RotationTwiceNormal(p.drillX, p.drillY, p.drillRotation);
  }

  lemma HoleTwice(h: Hole)
    requires WfHole(h)
    ensures NormHole(NormHole(h)) == NormHole(h) && WfHole(NormHole(h))
  {
    RotationTwiceNormal(h.drillX, h.drillY, h.drillRotation);
  }

  lemma ViaTwice(v: Via)
    requires WfVia(v)
    ensures NormVia(NormVia(v)) == NormVia(v) && WfVia(NormVia(v))
  {
    LayersTwice(v.layers);
  }

  lemma AcceptedNotConstant(v: Ring)
    requires AcceptedPolygon(v)
    ensures NormalizedRing(NormalizedRing(v)) == NormalizedRing(v)
  {
    assert OpenRing(v)[0] != OpenRing(v)[1];
    NormalFormIdempotentExactly(v);
  }

  lemma ZoneTwice(z: Zone)
    requires WfZone(z)
    ensures NormZone(NormZone(z)) == NormZone(z) && WfZone(NormZone(z))
  {
    AcceptedNotConstant(z.outline);
    NormalFormAccepted(z.outline);
  }

  lemma {:induction false} PathTwice(v: Path)
    ensures NormPath(NormPath(v)) == NormPath(v) && NormPath(Reverse(v)) == NormPath(v)
  {
    var r := Reverse(v);
    ReverseTwice(v);
    Total(Flatten(v), Flatten(r));
    if RingLe(v, r) && RingLe(r, v) {
      Antisymmetric(Flatten(v), Flatten(r));
      FlattenInjective(v, r);
    }
  }

  lemma WireTwice(w: Wire)
    requires WfWire(w)
    ensures NormWire(NormWire(w)) == NormWire(w) && WfWire(NormWire(w))
  {
    PathTwice(w.vertices);
    ReversedPathAccepted(w.vertices);
  }

  // ---------- The whole graph ----------

  lemma NormalizeMirrors(g: Graph)
    ensures GraphMirrors(g, Normalize(g))
  {
    SortElements(g.layers, LayerKey);
    CanonMirrors(g.components, NormComponent, ComponentKey);
    CanonMirrors(g.nets, NormNet, NetKey);
    CanonMirrors(g.placements, NormPlacement, PlacementKey);
    CanonMirrors(g.tracks, NormTrack, TrackKey);
    CanonMirrors(g.pads, NormPad, PadKey);
    CanonMirrors(g.holes, NormHole, HoleKey);
    CanonMirrors(g.vias, NormVia, ViaKey);
    CanonMirrors(g.zones, NormZone, ZoneKey);
    CanonMirrors(g.wires, NormWire, WireKey);
    CanonMirrors(g.junctions, NormJunction, JunctionKey);
  }

  lemma ComponentIds(g: Graph, h: Graph)
    requires h == Normalize(g)
    ensures UniqueKeys(g.components, ComponentKey) <==> UniqueKeys(h.components, ComponentKey)
    ensures UniqueKeys(g.components, ReferenceKey) <==> UniqueKeys(h.components, ReferenceKey)
    ensures UniqueKeys(g.nets, NetKey) <==> UniqueKeys(h.nets, NetKey)
    ensures UniqueKeys(g.nets, NetNameKey) <==> UniqueKeys(h.nets, NetNameKey)
  {
    CanonUnique(g.components, NormComponent, ComponentKey, ComponentKey);
    CanonUnique(g.components, NormComponent, ComponentKey, ReferenceKey);
    CanonUnique(g.nets, NormNet, NetKey, NetKey);
    CanonUnique(g.nets, NormNet, NetKey, NetNameKey);
  }

  lemma BoardIds(g: Graph, h: Graph)
    requires h == Normalize(g)
    ensures UniqueKeys(g.placements, PlacementKey) <==> UniqueKeys(h.placements, PlacementKey)
    ensures UniqueKeys(g.tracks, TrackKey) <==> UniqueKeys(h.tracks, TrackKey)
    ensures UniqueKeys(g.pads, PadKey) <==> UniqueKeys(h.pads, PadKey)
    ensures UniqueKeys(g.holes, HoleKey) <==> UniqueKeys(h.holes, HoleKey)
    ensures UniqueKeys(g.vias, ViaKey) <==> UniqueKeys(h.vias, ViaKey)
  {
    CanonUnique(g.placements, NormPlacement, PlacementKey, PlacementKey);
    CanonUnique(g.tracks, NormTrack, TrackKey, TrackKey);
    CanonUnique(g.pads, NormPad, PadKey, PadKey);
    CanonUnique(g.holes, NormHole, HoleKey, HoleKey);
    CanonUnique(g.vias, NormVia, ViaKey, ViaKey);
  }

  lemma SheetIds(g: Graph, h: Graph)
    requires h == Normalize(g)
    ensures UniqueKeys(g.zones, ZoneKey) <==> UniqueKeys(h.zones, ZoneKey)
    ensures UniqueKeys(g.wires, WireKey) <==> UniqueKeys(h.wires, WireKey)
    ensures UniqueKeys(g.junctions, JunctionKey) <==> UniqueKeys(h.junctions, JunctionKey)
    ensures UniqueKeys(g.layers, LayerKey) <==> UniqueKeys(h.layers, LayerKey)
  {
    CanonUnique(g.zones, NormZone, ZoneKey, ZoneKey);
    CanonUnique(g.wires, NormWire, WireKey, WireKey);
    CanonUnique(g.junctions, NormJunction, JunctionKey, JunctionKey);
    SortUnique(g.layers, LayerKey, LayerKey);
  }

  lemma NormalizeIds(g: Graph)
    ensures IdsUnique(g) <==> IdsUnique(Normalize(g))
    ensures UniqueKeys(g.layers, LayerKey) <==> UniqueKeys(Normalize(g).layers, LayerKey)
  {
    var h := Normalize(g);
    ComponentIds(g, h);
    BoardIds(g, h);
    SheetIds(g, h);
  }

  /** Normalising neither breaks nor repairs a graph. */
  lemma NormalizeKeepsValidity(g: Graph)
    requires WfGraph(g)
    ensures Valid(g) <==> Valid(Normalize(g))
  {
    NormalizeMirrors(g);
    NormalizeIds(g);
    MirrorValid(g, Normalize(g));
  }

  lemma NormalizeKeepsWf(g: Graph)
    requires WfGraph(g)
    ensures WfGraph(Normalize(g))
  {
    NormalizeMirrors(g);
    var h := Normalize(g);
    forall c | c in g.components { ComponentTwice(c); }
    forall n | n in g.nets { NetTwice(n); }
    forall t | t in g.tracks { TrackTwice(t); }
    forall p | p in g.pads { PadTwice(p); }
    forall k | k in g.holes { HoleTwice(k); }
    forall v | v in g.vias { ViaTwice(v); }
    forall z | z in g.zones { ZoneTwice(z); }
    forall w | w in g.wires { WireTwice(w); }
    assert forall c :: c in h.components ==> WfComponent(c);
    assert forall n :: n in h.nets ==> WfNet(n);
    assert forall p :: p in h.placements ==> WfPlacement(p);
    assert forall t :: t in h.tracks ==> WfTrack(t);
    assert forall p :: p in h.pads ==> WfPad(p);
  }

  lemma CircuitTwice(g: Graph)
    requires WfGraph(g) && IdsUnique(g)
    ensures var n := Normalize(g);
            && Canon(n.components, NormComponent, ComponentKey) == n.components && Canon(n.nets, NormNet, NetKey) == n.nets
            && Canon(n.placements, NormPlacement, PlacementKey) == n.placements && Canon(n.wires, NormWire, WireKey) == n.wires
            && Canon(n.junctions, NormJunction, JunctionKey) == n.junctions
  {
    forall c | c in g.components { ComponentTwice(c); }
    CanonTwice(g.components, NormComponent, ComponentKey);
    forall n | n in g.nets { NetTwice(n); }
    CanonTwice(g.nets, NormNet, NetKey);
    CanonTwice(g.placements, NormPlacement, PlacementKey);
    forall w | w in g.wires { WireTwice(w); }
    CanonTwice(g.wires, NormWire, WireKey);
    CanonTwice(g.junctions, NormJunction, JunctionKey);
  }

  lemma BoardTwice(g: Graph)
    requires WfGraph(g) && IdsUnique(g)
    ensures var n := Normalize(g);
            && Canon(n.tracks, NormTrack, TrackKey) == n.tracks && Canon(n.pads, NormPad, PadKey) == n.pads
            && Canon(n.holes, NormHole, HoleKey) == n.holes && Canon(n.vias, NormVia, ViaKey) == n.vias
            && Canon(n.zones, NormZone, ZoneKey) == n.zones
  {
    forall t | t in g.tracks { TrackTwice(t); }
    CanonTwice(g.tracks, NormTrack, TrackKey);
    forall p | p in g.pads { PadTwice(p); }
    CanonTwice(g.pads, NormPad, PadKey);
    forall k | k in g.holes { HoleTwice(k); }
    CanonTwice(g.holes, NormHole, HoleKey);
    forall v | v in g.vias { ViaTwice(v); }
    CanonTwice(g.vias, NormVia, ViaKey);
    forall z | z in g.zones { ZoneTwice(z); }
    CanonTwice(g.zones, NormZone, ZoneKey);
  }

  /** Normalising a graph with distinct identifiers twice is normalising it once. */
  lemma NormalizeTwice(g: Graph)
    requires WfGraph(g) && IdsUnique(g) && UniqueKeys(g.layers, LayerKey)
    requires !Constant(OpenRing(g.outline))
    ensures Normalize(Normalize(g)) == Normalize(g)
  {
    NoRepeatUnique(g.layers);
    LayersTwice(g.layers);
    NormalFormIdempotentExactly(g.outline);
    CircuitTwice(g);
    BoardTwice(g);
  }

  lemma ValidNormalizeTwice(g: Graph)
    requires WfGraph(g) && Valid(g)
    ensures Normalize(Normalize(g)) == Normalize(g)
  {
    if g.outline != [] {
      assert OpenRing(g.outline)[0] != OpenRing(g.outline)[1];
    }
    NormalizeTwice(g);
  }
}
