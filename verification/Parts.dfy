/**
 Intermediate graphs of an import.  `Partial(h, g)` says that `h` holds a leading part of every
 collection of `g`, closed under what its records refer to; such a part of a valid canonical
 graph is valid and canonical itself.
 */
module Parts {
  import opened Lex
  import opened Sorting
  import opened Geometry
  import opened Ring
  import opened Polygon
  import opened Wiring
  import opened Graph
  import opened Mirror
  import opened Normalization

  ghost predicate NetsBegun(hs: seq<Net>, gs: seq<Net>) {
    && |hs| <= |gs|
    && forall i :: 0 <= i < |hs| ==>
         hs[i].id == gs[i].id && hs[i].name == gs[i].name && hs[i].members <= gs[i].members
  }

  ghost predicate PadsBegun(hs: seq<Pad>, gs: seq<Pad>) {
    && Ascending(hs, PadKey)
    && (forall p :: p in hs ==> p in gs)
    && (forall p, q :: p in hs && q in gs && p.landGroup.Some? && q.landGroup == p.landGroup ==> q in hs)
  }

  /** Records are only present once everything they refer to is complete. */
  ghost predicate Grounded(h: Graph, g: Graph) {
    && ((exists n :: n in h.nets && n.members != []) || h.placements != [] ==> h.components == g.components)
    && (h.pads != [] ==> h.components == g.components && h.nets == g.nets && h.placements == g.placements)
    && (h.holes != [] ==> h.components == g.components && h.placements == g.placements && h.pads == g.pads)
    && (h.tracks != [] || h.vias != [] || h.zones != [] || h.wires != [] || h.junctions != [] ==> h.nets == g.nets)
    && (h.junctions != [] ==> h.wires == g.wires)
  }

  ghost predicate Partial(h: Graph, g: Graph) {
    && h.schemaVersion == g.schemaVersion && h.projectId == g.projectId && h.layers == g.layers
    && (h.outline == [] || h.outline == g.outline)
    && h.components <= g.components && NetsBegun(h.nets, g.nets)
    && h.placements <= g.placements && h.tracks <= g.tracks
    && PadsBegun(h.pads, g.pads) && h.holes <= g.holes
    && h.vias <= g.vias && h.zones <= g.zones
    && h.wires <= g.wires && h.junctions <= g.junctions
    && Grounded(h, g)
  }

  lemma PrefixIn<T(!new)>(s: seq<T>, t: seq<T>)
    requires s <= t
    ensures forall x :: x in s ==> x in t
  {
    forall x | x in s ensures x in t {
      var i :| 0 <= i < |s| && s[i] == x;
      assert t[i] == x;
    }
  }

  lemma PrefixUnique<T>(s: seq<T>, t: seq<T>, key: T -> Key)
    requires s <= t && UniqueKeys(t, key)
    ensures UniqueKeys(s, key)
  {
    assert forall i :: 0 <= i < |s| ==> s[i] == t[i];
  }

  lemma PrefixAscending<T>(s: seq<T>, t: seq<T>, key: T -> Key)
    requires s <= t && Ascending(t, key)
    ensures Ascending(s, key)
  {
    assert forall i :: 0 <= i < |s| ==> s[i] == t[i];
  }

  // ---------- Valid ----------

  lemma PartialElements(h: Graph, g: Graph)
    requires Partial(h, g)
    ensures forall x :: x in h.components ==> x in g.components
    ensures forall x :: x in h.placements ==> x in g.placements
    ensures forall x :: x in h.tracks ==> x in g.tracks
    ensures forall x :: x in h.pads ==> x in g.pads
    ensures forall x :: x in h.holes ==> x in g.holes
    ensures forall x :: x in h.vias ==> x in g.vias
    ensures forall x :: x in h.zones ==> x in g.zones
    ensures forall x :: x in h.wires ==> x in g.wires
    ensures forall x :: x in h.junctions ==> x in g.junctions
  {
    PrefixIn(h.components, g.components);
    PrefixIn(h.placements, g.placements);
    PrefixIn(h.tracks, g.tracks);
    PrefixIn(h.holes, g.holes);
    PrefixIn(h.vias, g.vias);
    PrefixIn(h.zones, g.zones);
    PrefixIn(h.wires, g.wires);
    PrefixIn(h.junctions, g.junctions);
  }

  lemma BegunNet(hs: seq<Net>, gs: seq<Net>, n: Net) returns (m: Net)
    requires NetsBegun(hs, gs) && n in hs
    ensures m in gs && m.id == n.id && n.members <= m.members
  {
    var i :| 0 <= i < |hs| && hs[i] == n;
    m := gs[i];
  }

  lemma BegunJoins(h: Graph, g: Graph, id: Id, pin: PinRef)
    requires NetsBegun(h.nets, g.nets) && Joined(h, id, pin)
    ensures Joined(g, id, pin)
  {
    var n :| n in h.nets && n.id == id && pin in n.members;
    var m := BegunNet(h.nets, g.nets, n);
    PrefixIn(n.members, m.members);
  }

  lemma BegunNetIds(hs: seq<Net>, gs: seq<Net>)
    requires NetsBegun(hs, gs) && UniqueKeys(gs, NetKey) && UniqueKeys(gs, NetNameKey)
    ensures UniqueKeys(hs, NetKey) && UniqueKeys(hs, NetNameKey)
  {
    forall i, j | 0 <= i < j < |hs| ensures NetKey(hs[i]) != NetKey(hs[j]) && NetNameKey(hs[i]) != NetNameKey(hs[j]) {
      assert NetKey(gs[i]) != NetKey(gs[j]) && NetNameKey(gs[i]) != NetNameKey(gs[j]);
    }
  }

  lemma PartialIds(h: Graph, g: Graph)
    requires Partial(h, g) && IdsUnique(g)
    ensures IdsUnique(h)
  {
    PrefixUnique(h.components, g.components, ComponentKey);
    PrefixUnique(h.components, g.components, ReferenceKey);
    BegunNetIds(h.nets, g.nets);
    PrefixUnique(h.placements, g.placements, PlacementKey);
    PrefixUnique(h.tracks, g.tracks, TrackKey);
    AscendingIsUnique(h.pads, PadKey);
    PrefixUnique(h.holes, g.holes, HoleKey);
    PrefixUnique(h.vias, g.vias, ViaKey);
    PrefixUnique(h.zones, g.zones, ZoneKey);
    PrefixUnique(h.wires, g.wires, WireKey);
    PrefixUnique(h.junctions, g.junctions, JunctionKey);
  }

  lemma PartialNetlist(h: Graph, g: Graph)
    requires Partial(h, g) && NetlistOk(g)
    ensures NetlistOk(h)
  {
    PartialElements(h, g);
    forall n, m | n in h.nets && m in n.members ensures HasPin(h, m.componentId, m.pin) {
      var full := BegunNet(h.nets, g.nets, n);
      PrefixIn(n.members, full.members);
      assert HasPin(g, m.componentId, m.pin);
      assert h.components == g.components;
    }
    forall a, b, m | Joined(h, a, m) && Joined(h, b, m) ensures a == b {
      BegunJoins(h, g, a, m);
      BegunJoins(h, g, b, m);
    }
    forall t | t in h.tracks ensures TrackOk(h, t) {
      assert TrackOk(g, t) && h.tracks != [];
    }
    forall p | p in h.placements ensures HasComponent(h, p.componentId) {
      assert HasComponent(g, p.componentId) && h.placements != [];
    }
  }

  lemma PadOkDepends(h: Graph, g: Graph, p: Pad)
    requires h.components == g.components && h.nets == g.nets && h.placements == g.placements && h.layers == g.layers
    requires PadOk(g, p)
    ensures PadOk(h, p)
  {
    var number :| PinOfPad(g, p.componentId, p.padNumber, number);
    assert PinOfPad(h, p.componentId, p.padNumber, number);
    forall n, netId | PinOfPad(h, p.componentId, p.padNumber, n) && Joined(h, netId, PinRef(p.componentId, n))
      ensures p.netId == Some(netId)
    {
      assert PinOfPad(g, p.componentId, p.padNumber, n) && Joined(g, netId, PinRef(p.componentId, n));
    }
  }

  lemma PartialPadRules(hs: seq<Pad>, gs: seq<Pad>)
    requires PadsBegun(hs, gs) && PadRulesOk(gs)
    ensures PadRulesOk(hs)
  {
    forall p ensures Mated(hs, p) {
      if p in hs && p.landGroup.Some? {
        assert Mated(gs, p);
        var q :| q in gs && q.landGroup == p.landGroup && q.id != p.id;
        assert q in hs;
      }
    }
  }

  lemma PartialPads(h: Graph, g: Graph)
    requires Partial(h, g) && PadsOk(g)
    ensures PadsOk(h)
  {
    forall p | p in h.pads ensures PadOk(h, p) {
      assert p in g.pads && h.pads != [];
      PadOkDepends(h, g, p);
    }
    PartialPadRules(h.pads, g.pads);
  }

  lemma PartialCopper(h: Graph, g: Graph)
    requires Partial(h, g) && CopperOk(g)
    ensures CopperOk(h)
  {
    PartialElements(h, g);
    forall k | k in h.holes ensures HoleOk(h, k) {
      assert HoleOk(g, k) && h.holes != [];
      assert HasComponent(h, k.componentId) && HasPlacement(h, k.componentId);
    }
    forall v | v in h.vias ensures ViaOk(h, v) { assert ViaOk(g, v) && h.vias != []; }
    forall z | z in h.zones ensures ZoneOk(h, z) { assert ZoneOk(g, z) && h.zones != []; }
  }

  lemma PartialSchematic(h: Graph, g: Graph)
    requires Partial(h, g) && SchematicOk(g)
    ensures SchematicOk(h)
  {
    PartialElements(h, g);
    forall w | w in h.wires ensures HasNet(h, w.netId) { assert HasNet(g, w.netId) && h.wires != []; }
    forall j | j in h.junctions ensures JunctionOk(h, j) { assert JunctionOk(g, j) && h.junctions != []; }
  }

  /** Every grounded part of a valid graph is valid. */
  lemma PartialValid(h: Graph, g: Graph)
    requires Partial(h, g) && Valid(g)
    ensures Valid(h)
  {
    PartialIds(h, g);
    PartialNetlist(h, g);
    PartialPads(h, g);
    PartialCopper(h, g);
    PartialSchematic(h, g);
  }

  // ---------- Canonical ----------

  ghost predicate SortedFixed<T(!new)>(xs: seq<T>, norm: T -> T, key: T -> Key) {
    Ascending(xs, key) && forall x :: x in xs ==> norm(x) == x
  }

  lemma FixedCanon<T(!new)>(xs: seq<T>, norm: T -> T, key: T -> Key)
    requires Canon(xs, norm, key) == xs && UniqueKeys(xs, key)
    requires forall x :: x in xs ==> key(norm(x)) == key(x) && norm(norm(x)) == norm(x)
    ensures SortedFixed(xs, norm, key)
  {
    CanonAscending(xs, norm, key);
    CanonMirrors(xs, norm, key);
  }

  /** What it takes for every collection to be in canonical form. */
  ghost predicate Tidy(g: Graph) {
    && SortBy(g.layers, LayerKey) == g.layers && NormalizedRing(g.outline) == g.outline
    && SortedFixed(g.components, NormComponent, ComponentKey) && SortedFixed(g.nets, NormNet, NetKey)
    && SortedFixed(g.placements, NormPlacement, PlacementKey) && SortedFixed(g.tracks, NormTrack, TrackKey)
    && SortedFixed(g.pads, NormPad, PadKey) && SortedFixed(g.holes, NormHole, HoleKey)
    && SortedFixed(g.vias, NormVia, ViaKey) && SortedFixed(g.zones, NormZone, ZoneKey)
    && SortedFixed(g.wires, NormWire, WireKey) && SortedFixed(g.junctions, NormJunction, JunctionKey)
  }

  lemma NormalIsTidy(g: Graph)
    requires WfGraph(g) && IdsUnique(g) && Normalize(g) == g
    ensures Tidy(g)
  {
    forall c | c in g.components { ComponentTwice(c); }
    FixedCanon(g.components, NormComponent, ComponentKey);
    forall n | n in g.nets { NetTwice(n); }
    FixedCanon(g.nets, NormNet, NetKey);
    FixedCanon(g.placements, NormPlacement, PlacementKey);
    forall t | t in g.tracks { TrackTwice(t); }
    FixedCanon(g.tracks, NormTrack, TrackKey);
    forall p | p in g.pads { PadTwice(p); }
    FixedCanon(g.pads, NormPad, PadKey);
    forall k | k in g.holes { HoleTwice(k); }
    FixedCanon(g.holes, NormHole, HoleKey);
    forall v | v in g.vias { ViaTwice(v); }
    FixedCanon(g.vias, NormVia, ViaKey);
    forall z | z in g.zones { ZoneTwice(z); }
    FixedCanon(g.zones, NormZone, ZoneKey);
    forall w | w in g.wires { WireTwice(w); }
    FixedCanon(g.wires, NormWire, WireKey);
    FixedCanon(g.junctions, NormJunction, JunctionKey);
  }

  lemma TidyIsNormal(g: Graph)
    requires Tidy(g)
    ensures Normalize(g) == g
  {
    CanonFixed(g.components, NormComponent, ComponentKey);
    CanonFixed(g.nets, NormNet, NetKey);
    CanonFixed(g.placements, NormPlacement, PlacementKey);
    CanonFixed(g.tracks, NormTrack, TrackKey);
    CanonFixed(g.pads, NormPad, PadKey);
    CanonFixed(g.holes, NormHole, HoleKey);
    CanonFixed(g.vias, NormVia, ViaKey);
    CanonFixed(g.zones, NormZone, ZoneKey);
    CanonFixed(g.wires, NormWire, WireKey);
    CanonFixed(g.junctions, NormJunction, JunctionKey);
  }

  lemma PrefixFixed<T(!new)>(s: seq<T>, t: seq<T>, norm: T -> T, key: T -> Key)
    requires s <= t && SortedFixed(t, norm, key)
    ensures SortedFixed(s, norm, key)
  {
    PrefixAscending(s, t, key);
    PrefixIn(s, t);
  }

  lemma MembersAscend(n: Net)
    requires WfNet(n) && NormNet(n) == n
    ensures Ascending(n.members, MemberKey)
  {
    MembersUnique(n.members);
    SortAscending(n.members, MemberKey);
  }

  lemma BegunNetsFixed(hs: seq<Net>, gs: seq<Net>)
    requires NetsBegun(hs, gs) && SortedFixed(gs, NormNet, NetKey)
    requires forall n :: n in gs ==> WfNet(n)
    ensures SortedFixed(hs, NormNet, NetKey)
    ensures forall n :: n in hs ==> WfNet(n)
  {
    assert forall i :: 0 <= i < |hs| ==> NetKey(hs[i]) == NetKey(gs[i]);
    forall n | n in hs ensures NormNet(n) == n && WfNet(n) {
      var full := BegunNet(hs, gs, n);
      MembersAscend(full);
      PrefixAscending(n.members, full.members, MemberKey);
      SortOfAscending(n.members, MemberKey);
      assert forall i :: 0 <= i < |n.members| ==> n.members[i] == full.members[i];
    }
  }

  /** Every grounded part of a canonical graph is canonical and well formed. */
  lemma PartialNormal(h: Graph, g: Graph)
    requires WfGraph(g) && Tidy(g) && Partial(h, g)
    ensures WfGraph(h) && Tidy(h) && Normalize(h) == h
  {
    PartialElements(h, g);
    BegunNetsFixed(h.nets, g.nets);
    PrefixFixed(h.components, g.components, NormComponent, ComponentKey);
    PrefixFixed(h.placements, g.placements, NormPlacement, PlacementKey);
    PrefixFixed(h.tracks, g.tracks, NormTrack, TrackKey);
    PrefixFixed(h.holes, g.holes, NormHole, HoleKey);
    PrefixFixed(h.vias, g.vias, NormVia, ViaKey);
    PrefixFixed(h.zones, g.zones, NormZone, ZoneKey);
    PrefixFixed(h.wires, g.wires, NormWire, WireKey);
    PrefixFixed(h.junctions, g.junctions, NormJunction, JunctionKey);
    TidyIsNormal(h);
  }
}
