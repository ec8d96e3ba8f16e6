/**
 Validity seen through canonical records: if every collection of `h` holds exactly the
 canonical forms of the records of `g`, in any order, the rules hold of both or of neither.
 */
module Mirror {
  import opened Lex
  import opened Sorting
  import opened Geometry
  import opened Ring
  import opened Polygon
  import opened Wiring
  import opened Graph

  ghost predicate Mirrors<T(!new)>(xs: seq<T>, ys: seq<T>, norm: T -> T) {
    && (forall x :: x in xs ==> norm(x) in ys)
    && (forall y :: y in ys ==> exists x :: x in xs && y == norm(x))
  }

  ghost predicate GraphMirrors(g: Graph, h: Graph) {
    && h.schemaVersion == g.schemaVersion && h.projectId == g.projectId
    && (forall l :: l in g.layers <==> l in h.layers)
    && h.outline == NormalizedRing(g.outline)
    && Mirrors(g.components, h.components, NormComponent) && Mirrors(g.nets, h.nets, NormNet)
    && Mirrors(g.placements, h.placements, NormPlacement) && Mirrors(g.tracks, h.tracks, NormTrack)
    && Mirrors(g.pads, h.pads, NormPad) && Mirrors(g.holes, h.holes, NormHole)
    && Mirrors(g.vias, h.vias, NormVia) && Mirrors(g.zones, h.zones, NormZone)
    && Mirrors(g.wires, h.wires, NormWire) && Mirrors(g.junctions, h.junctions, NormJunction)
  }

  // ---------- The same things may be referred to ----------

  ghost predicate SameContext(g: Graph, h: Graph) {
    && (forall id :: HasComponent(g, id) <==> HasComponent(h, id))
    && (forall c, n :: HasPin(g, c, n) <==> HasPin(h, c, n))
    && (forall c, p, n :: PinOfPad(g, c, p, n) <==> PinOfPad(h, c, p, n))
    && (forall id :: HasNet(g, id) <==> HasNet(h, id))
    && (forall id, m :: Joined(g, id, m) <==> Joined(h, id, m))
    && (forall id :: HasPlacement(g, id) <==> HasPlacement(h, id))
    && (forall l :: l in g.layers <==> l in h.layers)
  }

  lemma SortedPins(c: Component)
    ensures forall p :: p in NormComponent(c).pins <==> p in c.pins
  {
    SortElements(c.pins, PinKey);
  }

  lemma SortedMembers(n: Net)
    ensures forall m :: m in NormNet(n).members <==> m in n.members
  {
    SortElements(n.members, MemberKey);
  }

  lemma SortedLayers(layers: seq<string>)
    ensures forall l :: l in SortBy(layers, LayerKey) <==> l in layers
  {
    SortElements(layers, LayerKey);
  }

  lemma ComponentContext(g: Graph, h: Graph)
    requires Mirrors(g.components, h.components, NormComponent)
    ensures forall id :: HasComponent(g, id) <==> HasComponent(h, id)
    ensures forall c, n :: HasPin(g, c, n) <==> HasPin(h, c, n)
    ensures forall c, p, n :: PinOfPad(g, c, p, n) <==> PinOfPad(h, c, p, n)
  {
    forall c { SortedPins(c); }
    forall id ensures HasComponent(g, id) <==> HasComponent(h, id) {
      if HasComponent(g, id) {
        var c :| c in g.components && c.id == id;
        assert NormComponent(c) in h.components;
      }
    }
    forall id, n ensures HasPin(g, id, n) <==> HasPin(h, id, n) {
      if HasPin(g, id, n) {
        var c, p :| c in g.components && c.id == id && p in c.pins && p.number == n;
        assert NormComponent(c) in h.components && p in NormComponent(c).pins;
      }
      if HasPin(h, id, n) {
        var c, p :| c in h.components && c.id == id && p in c.pins && p.number == n;
        var c0 :| c0 in g.components && c == NormComponent(c0);
        assert p in c0.pins;
      }
    }
    forall id, pad, n ensures PinOfPad(g, id, pad, n) <==> PinOfPad(h, id, pad, n) {
      if PinOfPad(g, id, pad, n) {
        var c, p :| c in g.components && c.id == id && p in c.pins && p.padNumber == pad && p.number == n;
        assert NormComponent(c) in h.components && p in NormComponent(c).pins;
      }
      if PinOfPad(h, id, pad, n) {
        var c, p :| c in h.components && c.id == id && p in c.pins && p.padNumber == pad && p.number == n;
        var c0 :| c0 in g.components && c == NormComponent(c0);
        assert p in c0.pins;
      }
    }
  }

  lemma NetContext(g: Graph, h: Graph)
    requires Mirrors(g.nets, h.nets, NormNet)
    ensures forall id :: HasNet(g, id) <==> HasNet(h, id)
    ensures forall id, m :: Joined(g, id, m) <==> Joined(h, id, m)
  {
    forall n { SortedMembers(n); }
    forall id ensures HasNet(g, id) <==> HasNet(h, id) {
      if HasNet(g, id) {
        var n :| n in g.nets && n.id == id;
        assert NormNet(n) in h.nets;
      }
    }
    forall id, m ensures Joined(g, id, m) <==> Joined(h, id, m) {
      if Joined(g, id, m) {
        var n :| n in g.nets && n.id == id && m in n.members;
        assert NormNet(n) in h.nets && m in NormNet(n).members;
      }
      if Joined(h, id, m) {
        var n :| n in h.nets && n.id == id && m in n.members;
        var n0 :| n0 in g.nets && n == NormNet(n0);
        assert m in n0.members;
      }
    }
  }

  lemma MirrorContext(g: Graph, h: Graph)
    requires GraphMirrors(g, h)
    ensures SameContext(g, h)
  {
    ComponentContext(g, h);
    NetContext(g, h);
    forall id ensures HasPlacement(g, id) <==> HasPlacement(h, id) {
      if HasPlacement(g, id) {
        var p :| p in g.placements && p.componentId == id;
        assert NormPlacement(p) in h.placements;
      }
    }
  }

  // ---------- Rule by rule ----------

  lemma MirrorOutline(v: Ring)
    ensures NormalizedRing(v) == [] <==> v == []
    ensures AcceptedPolygon(v) <==> AcceptedPolygon(NormalizedRing(v))
  {
    NormalFormAccepted(v);
    NormalFormIsLeast(v);
    if NormalizedRing(v) == [] {
      var r, i: nat :| i <= |OpenRing(v)| && NormalizedRing(v) == Turn(OpenRing(v), r, i);
      assert OpenRing(v) == [];
    }
  }

  lemma MirrorFrame(g: Graph, h: Graph)
    requires GraphMirrors(g, h)
    requires UniqueKeys(g.layers, LayerKey) <==> UniqueKeys(h.layers, LayerKey)
    ensures FrameOk(g) <==> FrameOk(h)
  {
    assert g.layers != [] <==> h.layers != [] by {
      if g.layers != [] { assert g.layers[0] in h.layers; }
      if h.layers != [] { assert h.layers[0] in g.layers; }
    }
    MirrorOutline(g.outline);
  }

  lemma MembersKnownByJoin(g: Graph)
    ensures MembersKnown(g) <==> forall id, m :: Joined(g, id, m) ==> HasPin(g, m.componentId, m.pin)
  {
    if MembersKnown(g) {
      forall id, m | Joined(g, id, m) ensures HasPin(g, m.componentId, m.pin) {
        var n :| n in g.nets && n.id == id && m in n.members;
      }
    }
    if forall id, m :: Joined(g, id, m) ==> HasPin(g, m.componentId, m.pin) {
      forall n, m | n in g.nets && m in n.members ensures HasPin(g, m.componentId, m.pin) {
        assert Joined(g, n.id, m);
      }
    }
  }

  lemma MirrorTracks(g: Graph, h: Graph)
    requires Mirrors(g.tracks, h.tracks, NormTrack) && SameContext(g, h)
    ensures (forall t :: t in g.tracks ==> TrackOk(g, t)) <==> (forall t :: t in h.tracks ==> TrackOk(h, t))
  {
    forall t ensures TrackOk(g, t) <==> TrackOk(h, NormTrack(t)) { }
    if forall t :: t in h.tracks ==> TrackOk(h, t) {
      forall t | t in g.tracks ensures TrackOk(g, t) { assert NormTrack(t) in h.tracks; }
    }
  }

  lemma MirrorPlacements(g: Graph, h: Graph)
    requires Mirrors(g.placements, h.placements, NormPlacement) && SameContext(g, h)
    ensures PlacementsOk(g) <==> PlacementsOk(h)
  {
    if PlacementsOk(h) {
      forall p | p in g.placements ensures HasComponent(g, p.componentId) { assert NormPlacement(p) in h.placements; }
    }
  }

  lemma MirrorNetlist(g: Graph, h: Graph)
    requires GraphMirrors(g, h) && SameContext(g, h)
    ensures NetlistOk(g) <==> NetlistOk(h)
  {
    MembersKnownByJoin(g);
    MembersKnownByJoin(h);
    MirrorPlacements(g, h);
    MirrorTracks(g, h);
  }

  lemma PadOkMirror(g: Graph, h: Graph, p: Pad)
    requires SameContext(g, h)
    ensures PadOk(g, p) <==> PadOk(h, NormPad(p))
  {
    SortedLayers(p.layers);
    if PadOk(g, p) {
      var number :| PinOfPad(g, p.componentId, p.padNumber, number);
      assert PinOfPad(h, p.componentId, p.padNumber, number);
    }
    if PadOk(h, NormPad(p)) {
      var number :| PinOfPad(h, p.componentId, p.padNumber, number);
      assert PinOfPad(g, p.componentId, p.padNumber, number);
    }
  }

  lemma LandIgnoresOrder(p: Pad)
    requires NoRepeat(p.layers)
    ensures NormPad(NormPad(p)) == NormPad(p)
    ensures LandOf(NormPad(p)) == LandOf(p)
  {
    NoRepeatUnique(p.layers);
    SortAscending(p.layers, LayerKey);
    SortOfAscending(SortBy(p.layers, LayerKey), LayerKey);
  }

  lemma NoRepeatUnique(layers: seq<string>)
    ensures NoRepeat(layers) <==> UniqueKeys(layers, LayerKey)
  {
    if NoRepeat(layers) {
      forall i, j | 0 <= i < j < |layers| ensures LayerKey(layers[i]) != LayerKey(layers[j]) {
        if LayerKey(layers[i]) == LayerKey(layers[j]) { CodesInjective(layers[i], layers[j]); }
      }
    }
    if UniqueKeys(layers, LayerKey) {
      forall i, j | 0 <= i < j < |layers| ensures layers[i] != layers[j] {
        assert LayerKey(layers[i]) != LayerKey(layers[j]);
      }
    }
  }

  /** Two pads meet the pairwise rules exactly when their canonical forms do. */
  lemma PadPairMirror(p: Pad, q: Pad)
    requires LandOf(NormPad(p)) == LandOf(p) && LandOf(NormPad(q)) == LandOf(q)
    ensures PadPairOk(p, q) <==> PadPairOk(NormPad(p), NormPad(q))
  {
  }

  lemma LandMateMirror(xs: seq<Pad>, ys: seq<Pad>, p: Pad)
    requires Mirrors(xs, ys, NormPad)
    ensures HasLandMate(xs, p) <==> HasLandMate(ys, NormPad(p))
  {
    if HasLandMate(xs, p) {
      var q :| q in xs && q.landGroup == p.landGroup && q.id != p.id;
      assert NormPad(q) in ys;
    }
    if HasLandMate(ys, NormPad(p)) {
      var q :| q in ys && q.landGroup == p.landGroup && q.id != p.id;
      var q0 :| q0 in xs && q == NormPad(q0);
    }
  }

  lemma PadRulesMirror(xs: seq<Pad>, ys: seq<Pad>)
    requires Mirrors(xs, ys, NormPad)
    requires forall p :: p in xs ==> LandOf(NormPad(p)) == LandOf(p)
    ensures PadRulesOk(xs) <==> PadRulesOk(ys)
  {
    if PadRulesOk(xs) {
      forall p, q | p in ys && q in ys ensures PadPairOk(p, q) {
        var p0 :| p0 in xs && p == NormPad(p0);
        var q0 :| q0 in xs && q == NormPad(q0);
        PadPairMirror(p0, q0);
      }
      forall p ensures Mated(ys, p) {
        if p in ys && p.landGroup.Some? {
          var p0 :| p0 in xs && p == NormPad(p0);
          assert Mated(xs, p0);
          LandMateMirror(xs, ys, p0);
        }
      }
    }
    if PadRulesOk(ys) {
      forall p, q | p in xs && q in xs ensures PadPairOk(p, q) {
        assert NormPad(p) in ys && NormPad(q) in ys;
        PadPairMirror(p, q);
      }
      forall p ensures Mated(xs, p) {
        if p in xs && p.landGroup.Some? {
          assert NormPad(p) in ys && Mated(ys, NormPad(p));
          LandMateMirror(xs, ys, p);
        }
      }
    }
  }

  lemma MirrorPads(g: Graph, h: Graph)
    requires GraphMirrors(g, h) && SameContext(g, h)
    requires forall p :: p in g.pads ==> WfPad(p)
    ensures PadsOk(g) <==> PadsOk(h)
  {
    forall p { PadOkMirror(g, h, p); }
    forall p | p in g.pads ensures LandOf(NormPad(p)) == LandOf(p) { LandIgnoresOrder(p); }
    PadRulesMirror(g.pads, h.pads);
    if PadsOk(h) {
      forall p | p in g.pads ensures PadOk(g, p) { assert NormPad(p) in h.pads; }
    }
  }

  lemma RotationTwiceNormal(x: int, y: int, r: int)
    ensures NormRotation(x, y, NormRotation(x, y, r)) == NormRotation(x, y, r)
  {
  }

  lemma PadFitsHoleMirror(p: Pad, h: Hole)
    ensures PadFitsHole(p, h) <==> PadFitsHole(NormPad(p), NormHole(h))
  {
    RotationTwiceNormal(p.drillX, p.drillY, p.drillRotation);
    RotationTwiceNormal(h.drillX, h.drillY, h.drillRotation);
  }

  lemma HoleHasPadMirror(xs: seq<Pad>, ys: seq<Pad>, h: Hole)
    requires Mirrors(xs, ys, NormPad)
    ensures HoleHasPad(xs, h) <==> HoleHasPad(ys, NormHole(h))
  {
    if h.padId.Some? && HoleHasPad(xs, h) {
      var p :| p in xs && p.id == h.padId.value && PadFitsHole(p, h);
      PadFitsHoleMirror(p, h);
      assert NormPad(p) in ys;
    }
    if h.padId.Some? && HoleHasPad(ys, NormHole(h)) {
      var p :| p in ys && p.id == h.padId.value && PadFitsHole(p, NormHole(h));
      var p0 :| p0 in xs && p == NormPad(p0);
      PadFitsHoleMirror(p0, h);
    }
  }

  lemma MirrorHoles(g: Graph, h: Graph)
    requires SameContext(g, h) && Mirrors(g.pads, h.pads, NormPad) && Mirrors(g.holes, h.holes, NormHole)
    ensures (forall k :: k in g.holes ==> HoleOk(g, k)) <==> (forall k :: k in h.holes ==> HoleOk(h, k))
    ensures HolesBindOnce(g) <==> HolesBindOnce(h)
  {
    forall k ensures HoleOk(g, k) <==> HoleOk(h, NormHole(k)) {
      HoleHasPadMirror(g.pads, h.pads, k);
    }
    if forall k :: k in h.holes ==> HoleOk(h, k) {
      forall k | k in g.holes ensures HoleOk(g, k) { assert NormHole(k) in h.holes; }
    }
    if HolesBindOnce(h) {
      forall a, b | a in g.holes && b in g.holes && a.padId.Some? && a.padId == b.padId ensures a.id == b.id {
        assert NormHole(a) in h.holes && NormHole(b) in h.holes;
      }
    }
  }

  lemma MirrorVias(g: Graph, h: Graph)
    requires SameContext(g, h) && Mirrors(g.vias, h.vias, NormVia)
    ensures (forall v :: v in g.vias ==> ViaOk(g, v)) <==> (forall v :: v in h.vias ==> ViaOk(h, v))
  {
    forall v ensures ViaOk(g, v) <==> ViaOk(h, NormVia(v)) { SortedLayers(v.layers); }
    if forall v :: v in h.vias ==> ViaOk(h, v) {
      forall v | v in g.vias ensures ViaOk(g, v) { assert NormVia(v) in h.vias; }
    }
  }

  lemma MirrorZones(g: Graph, h: Graph)
    requires SameContext(g, h) && Mirrors(g.zones, h.zones, NormZone)
    ensures (forall z :: z in g.zones ==> ZoneOk(g, z)) <==> (forall z :: z in h.zones ==> ZoneOk(h, z))
  {
    forall z ensures ZoneOk(g, z) <==> ZoneOk(h, NormZone(z)) { NormalFormAccepted(z.outline); }
    if forall z :: z in h.zones ==> ZoneOk(h, z) {
      forall z | z in g.zones ensures ZoneOk(g, z) { assert NormZone(z) in h.zones; }
    }
  }

  lemma MirrorCopper(g: Graph, h: Graph)
    requires GraphMirrors(g, h) && SameContext(g, h)
    ensures CopperOk(g) <==> CopperOk(h)
  {
    MirrorHoles(g, h);
    MirrorVias(g, h);
    MirrorZones(g, h);
  }

  // ---------- Schematic wires ----------

  lemma NormPathIsTurned(v: Path)
    ensures NormPath(v) == v || NormPath(v) == Reverse(v)
  {
  }

  lemma {:induction false} ReverseNoRepeat(v: Path)
    requires NoRepeat(v)
    ensures NoRepeat(Reverse(v))
  {
    var q := Reverse(v);
    forall i, j | 0 <= i < j < |q| ensures q[i] != q[j] {
      assert q[i] == v[|v| - 1 - i] && q[j] == v[|v| - 1 - j];
    }
  }

  lemma PathsClearTurned(u: Path, v: Path, sameNet: bool)
    requires NoRepeat(u) && NoRepeat(v)
    ensures PathsClear(u, v, sameNet) <==> PathsClear(Reverse(u), v, sameNet)
  {
    ReverseNoRepeat(u);
    ReverseTwice(u);
    if PathsClear(u, v, sameNet) { PathsClearReversed(u, v, sameNet); }
    if PathsClear(Reverse(u), v, sameNet) { PathsClearReversed(Reverse(u), v, sameNet); }
  }

  lemma PathsClearSwapped(u: Path, v: Path, sameNet: bool)
    requires NoRepeat(u) && NoRepeat(v)
    ensures PathsClear(u, v, sameNet) <==> PathsClear(v, u, sameNet)
  {
    if PathsClear(u, v, sameNet) { PathsClearSymmetric(u, v, sameNet); }
    if PathsClear(v, u, sameNet) { PathsClearSymmetric(v, u, sameNet); }
  }

  lemma PathsClearHalf(u: Path, v: Path, sameNet: bool)
    requires NoRepeat(u) && NoRepeat(v)
    ensures NoRepeat(NormPath(u))
    ensures PathsClear(u, v, sameNet) <==> PathsClear(NormPath(u), v, sameNet)
  {
    NormPathIsTurned(u);
    if NormPath(u) == Reverse(u) {
      ReverseNoRepeat(u);
      PathsClearTurned(u, v, sameNet);
    }
  }

  lemma PathsClearNormal(u: Path, v: Path, sameNet: bool)
    requires NoRepeat(u) && NoRepeat(v)
    ensures PathsClear(u, v, sameNet) <==> PathsClear(NormPath(u), NormPath(v), sameNet)
  {
    var nu, nv := NormPath(u), NormPath(v);
    PathsClearHalf(u, v, sameNet);
    PathsClearSwapped(nu, v, sameNet);
    PathsClearHalf(v, nu, sameNet);
    PathsClearSwapped(nv, nu, sameNet);
  }

  lemma WirePairMirror(u: Wire, v: Wire)
    requires WfWire(u) && WfWire(v)
    ensures WirePairOk(u, v) <==> WirePairOk(NormWire(u), NormWire(v))
  {
    PathsClearNormal(u.vertices, v.vertices, u.netId == v.netId);
  }

  lemma MirrorWirePairs(xs: seq<Wire>, ys: seq<Wire>)
    requires Mirrors(xs, ys, NormWire)
    requires forall w :: w in xs ==> WfWire(w)
    ensures WirePairsOk(xs) <==> WirePairsOk(ys)
  {
    if WirePairsOk(xs) {
      forall u, v | u in ys && v in ys ensures WirePairOk(u, v) {
        var u0 :| u0 in xs && u == NormWire(u0);
        var v0 :| v0 in xs && v == NormWire(v0);
        WirePairMirror(u0, v0);
      }
    }
    if WirePairsOk(ys) {
      forall u, v | u in xs && v in xs ensures WirePairOk(u, v) {
        assert NormWire(u) in ys && NormWire(v) in ys;
        WirePairMirror(u, v);
      }
    }
  }

  lemma SupportsNormal(w: Wire, j: Junction)
    ensures Supports(w, j) <==> Supports(NormWire(w), j)
  {
    OnPathReversed(j.position, w.vertices);
  }

  lemma JoinsTwoMirror(xs: seq<Wire>, ys: seq<Wire>, j: Junction)
    requires Mirrors(xs, ys, NormWire)
    ensures JoinsTwo(xs, j) <==> JoinsTwo(ys, j)
  {
    if JoinsTwo(xs, j) {
      var u, v :| u in xs && v in xs && u.id != v.id && Supports(u, j) && Supports(v, j);
      SupportsNormal(u, j);
      SupportsNormal(v, j);
      assert NormWire(u) in ys && NormWire(v) in ys;
    }
    if JoinsTwo(ys, j) {
      var u, v :| u in ys && v in ys && u.id != v.id && Supports(u, j) && Supports(v, j);
      var u0 :| u0 in xs && u == NormWire(u0);
      var v0 :| v0 in xs && v == NormWire(v0);
      SupportsNormal(u0, j);
      SupportsNormal(v0, j);
    }
  }

  lemma MirrorJunctions(g: Graph, h: Graph)
    requires SameContext(g, h) && Mirrors(g.wires, h.wires, NormWire) && Mirrors(g.junctions, h.junctions, NormJunction)
    ensures (forall j :: j in g.junctions ==> JunctionOk(g, j)) <==> (forall j :: j in h.junctions ==> JunctionOk(h, j))
    ensures JunctionsApart(g) <==> JunctionsApart(h)
  {
    forall j ensures JunctionOk(g, j) <==> JunctionOk(h, j) {
      JoinsTwoMirror(g.wires, h.wires, j);
    }
    forall j ensures j in g.junctions <==> j in h.junctions {
      if j in g.junctions { assert NormJunction(j) in h.junctions; }
    }
  }

  lemma MirrorSchematic(g: Graph, h: Graph)
    requires GraphMirrors(g, h) && SameContext(g, h)
    requires forall w :: w in g.wires ==> WfWire(w)
    ensures SchematicOk(g) <==> SchematicOk(h)
  {
    MirrorWirePairs(g.wires, h.wires);
    MirrorJunctions(g, h);
    assert (forall w :: w in g.wires ==> HasNet(g, w.netId)) <==> (forall w :: w in h.wires ==> HasNet(h, w.netId)) by {
      if forall w :: w in h.wires ==> HasNet(h, w.netId) {
        forall w | w in g.wires ensures HasNet(g, w.netId) { assert NormWire(w) in h.wires; }
      }
    }
  }

  /** A graph and any canonical view of it are both valid or both invalid. */
  lemma MirrorValid(g: Graph, h: Graph)
    requires WfGraph(g) && GraphMirrors(g, h)
    requires UniqueKeys(g.layers, LayerKey) <==> UniqueKeys(h.layers, LayerKey)
    requires IdsUnique(g) <==> IdsUnique(h)
    ensures Valid(g) <==> Valid(h)
  {
    MirrorContext(g, h);
    MirrorFrame(g, h);
    MirrorNetlist(g, h);
    MirrorPads(g, h);
    MirrorCopper(g, h);
    MirrorSchematic(g, h);
  }
}
