/**
 What each command does to a staged graph (backend/design_kernel/engine.py:796-1163), stated on the
 objects present before and after: which commands are refused, what is added or removed, and
 that everything else stays.
 */
module CommandEffects {
  import opened Lex
  import opened Sorting
  import opened Geometry
  import opened Ring
  import opened Wiring
  import opened Graph
  import opened Mirror
  import opened Normalization
  import opened Commands
  import opened Parts

  // ---------- Defaults of the constructors ----------

  /** Drill sizes a pad payload may leave out are filled in from the ones it gives; nothing else changes. */
  lemma PadDefaults(p: Pad)
    ensures var q := InitPad(p);
            if p.drillX == 0 && p.drillY == 0 && p.drill > 0 then q == p.(drillX := p.drill, drillY := p.drill)
            else if p.drillX > 0 && p.drill == 0 then q == p.(drill := Min(p.drillX, p.drillY))
            else q == p
  {
  }

  lemma HoleDefaults(h: Hole)
    ensures InitHole(h) == if h.drillX == 0 && h.drillY == 0 then h.(drillX := h.diameter, drillY := h.diameter) else h
  {
  }

  // ---------- What a command means ----------

  ghost predicate Adds<T(!new)>(xs: seq<T>, x: T, ys: seq<T>) { forall y :: y in ys <==> y in xs || y == x }

  /** `ys` holds what `xs` holds, except what is dropped. */
  ghost predicate Keeps<T(!new)>(xs: seq<T>, drop: T -> bool, ys: seq<T>) { forall y :: y in ys <==> y in xs && !drop(y) }

  /** The net with one more member. */
  ghost predicate Joins(n: Net, pin: PinRef, m: Net) {
    m == n.(members := m.members) && multiset(m.members) == multiset(n.members) + multiset{pin}
  }

  /** Other nets stay, the named net gains the pin, and no net appears. */
  ghost predicate MeansConnect(before: seq<Net>, id: Id, pin: PinRef, after: seq<Net>) {
    && (forall n :: n in before && n.id != id ==> n in after)
    && (forall n :: n in before && n.id == id ==> exists m :: m in after && Joins(n, pin, m))
    && (forall m :: m in after ==> if m.id == id then exists n :: n in before && Joins(n, pin, m) else m in before)
  }

  /** The objects of `h` are those of `g` after the command; collections that a case does not mention are equal. */
  ghost predicate Means(g: Graph, op: Op, h: Graph) {
    match op
    case AddComponent(c) => h == g.(components := h.components) && Adds(g.components, NormComponent(c), h.components)
    case RemoveComponent(id) =>
      && h == g.(components := h.components, placements := h.placements, pads := h.pads, holes := h.holes)
      && Keeps(g.components, (c: Component) => c.id == id, h.components)
      && Keeps(g.placements, (p: Placement) => p.componentId == id, h.placements)
      && Keeps(g.pads, (p: Pad) => p.componentId == id, h.pads)
      && Keeps(g.holes, (k: Hole) => k.componentId == id, h.holes)
    case CreateNet(id, name) => h == g.(nets := h.nets) && Adds(g.nets, Net(id, name, []), h.nets)
    case ConnectNet(id, pin) =>
      h == g.(nets := h.nets) && MeansConnect(g.nets, id, pin, h.nets)
    case PlaceFootprint(p) =>
      && h == g.(placements := h.placements)
      && forall q :: q in h.placements <==> q == p || (q in g.placements && q.componentId != p.componentId)
    case AddPad(p) => h == g.(pads := h.pads) && Adds(g.pads, NormPad(InitPad(p)), h.pads)
    case AddPadGroup(_, pads) =>
      && h == g.(pads := h.pads)
      && forall q :: q in h.pads <==> q in g.pads || exists p :: p in pads && q == NormPad(InitPad(p))
    case AddHole(k) => h == g.(holes := h.holes) && Adds(g.holes, NormHole(InitHole(k)), h.holes)
    case AddTrack(t) => h == g.(tracks := h.tracks) && Adds(g.tracks, NormTrack(t), h.tracks)
    case AddVia(v) => h == g.(vias := h.vias) && Adds(g.vias, NormVia(v), h.vias)
    case AddZone(id, net, layer, outline, clearance, thickness, priority, locked) =>
      && h == g.(zones := h.zones)
      && Adds(g.zones, Zone(id, net, layer, NormalizedRing(outline), clearance, thickness, priority, locked, Unfilled), h.zones)
    case AddWire(w) => h == g.(wires := h.wires) && Adds(g.wires, NormWire(w), h.wires)
    case AddJunction(j) => h == g.(junctions := h.junctions) && Adds(g.junctions, j, h.junctions)
    case SetOutline(v) => h == g.(outline := NormalizedRing(v))
  }

  // ---------- When a command is refused outright ----------

  /** Something that belongs to the component is locked. */
  ghost predicate LockedPart(g: Graph, id: Id) {
    || (exists p :: p in g.placements && p.componentId == id && p.locked)
    || (exists p :: p in g.pads && p.componentId == id && p.locked)
    || (exists k :: k in g.holes && k.componentId == id && k.locked)
  }

  ghost predicate NamedByNet(g: Graph, id: Id) { exists n, m :: n in g.nets && m in n.members && m.componentId == id }

  ghost predicate LockedPlacement(g: Graph, id: Id) { exists p :: p in g.placements && p.componentId == id && p.locked }

  ghost predicate PadExists(g: Graph, id: Id) { exists q :: q in g.pads && q.id == id }

  /** The command's own conditions, before the result is validated as a whole. */
  ghost predicate Permitted(g: Graph, op: Op) {
    match op
    case AddComponent(c) => WfComponent(c) && forall d :: d in g.components ==> d.id != c.id && d.reference != c.reference
    case RemoveComponent(id) => HasComponent(g, id) && !NamedByNet(g, id) && !LockedPart(g, id)
    case CreateNet(id, name) => forall n :: n in g.nets ==> n.id != id && n.name != name
    case ConnectNet(id, pin) => HasNet(g, id) && forall n :: n in g.nets ==> pin !in n.members
    case PlaceFootprint(p) => HasComponent(g, p.componentId) && !LockedPlacement(g, p.componentId) && WfPlacement(p)
    case AddPad(p) => WfPad(InitPad(p)) && p.landGroup.None? && !PadExists(g, p.id)
    case AddPadGroup(id, pads) =>
      && |pads| >= 2
      && (forall p :: p in pads ==> WfPad(InitPad(p)) && p.landGroup == Some(id) && !PadExists(g, p.id))
      && (forall i, j :: 0 <= i < j < |pads| ==> pads[i].id != pads[j].id)
    case AddHole(k) => WfHole(InitHole(k)) && forall l :: l in g.holes ==> l.id != k.id
    case AddTrack(t) => WfTrack(t) && forall u :: u in g.tracks ==> u.id != t.id
    case AddVia(v) => WfVia(v) && forall u :: u in g.vias ==> u.id != v.id
    case AddZone(id, net, layer, outline, clearance, thickness, priority, locked) =>
      && WfZone(Zone(id, net, layer, outline, clearance, thickness, priority, locked, Unfilled))
      && forall y :: y in g.zones ==> y.id != id
    case AddWire(w) => WfWire(w) && forall u :: u in g.wires ==> u.id != w.id
    case AddJunction(j) => forall k :: k in g.junctions ==> k.id != j.id
    case SetOutline(_) => true
  }

  lemma GroupIdsDistinct(pads: seq<Pad>)
    ensures UniqueKeys(MapSeq(pads, InitPad), PadKey) <==> forall i, j :: 0 <= i < j < |pads| ==> pads[i].id != pads[j].id
  {
    var group := MapSeq(pads, InitPad);
    forall i, j | 0 <= i < j < |pads| ensures PadKey(group[i]) == PadKey(group[j]) <==> pads[i].id == pads[j].id {
      if PadKey(group[i]) == PadKey(group[j]) { CodesInjective(pads[i].id, pads[j].id); }
    }
    if UniqueKeys(group, PadKey) {
      forall i, j | 0 <= i < j < |pads| ensures pads[i].id != pads[j].id { assert PadKey(group[i]) != PadKey(group[j]); }
    }
  }

  lemma InitMember(pads: seq<Pad>, q: Pad)
    ensures q in MapSeq(pads, InitPad) <==> exists p :: p in pads && q == InitPad(p)
  {
    var group := MapSeq(pads, InitPad);
    if q in group {
      var i :| 0 <= i < |group| && group[i] == q;
      assert pads[i] in pads;
    }
    if p :| p in pads && q == InitPad(p) {
      var i :| 0 <= i < |pads| && pads[i] == p;
      assert group[i] == q;
    }
  }

  lemma GroupEvery(g: Graph, id: Id, pads: seq<Pad>)
    ensures (forall q :: q in MapSeq(pads, InitPad) ==> WfPad(q) && q.landGroup == Some(id) && !PadExists(g, q.id))
            <==> forall p :: p in pads ==> WfPad(InitPad(p)) && p.landGroup == Some(id) && !PadExists(g, p.id)
  {
    forall p | p in pads ensures InitPad(p) in MapSeq(pads, InitPad) { InitMember(pads, InitPad(p)); }
    forall q | q in MapSeq(pads, InitPad) ensures exists p :: p in pads && q == InitPad(p) { InitMember(pads, q); }
  }

  lemma GroupChecks(g: Graph, id: Id, pads: seq<Pad>)
    ensures ApplyPadGroup(g, id, pads).Ok? <==>
      && |pads| >= 2 && UniqueKeys(MapSeq(pads, InitPad), PadKey)
      && forall q :: q in MapSeq(pads, InitPad) ==> WfPad(q) && q.landGroup == Some(id) && !PadExists(g, q.id)
  {
  }

  lemma GroupPermitted(g: Graph, id: Id, pads: seq<Pad>)
    ensures ApplyPadGroup(g, id, pads).Ok? <==> Permitted(g, AddPadGroup(id, pads))
  {
    GroupChecks(g, id, pads);
    GroupIdsDistinct(pads);
    GroupEvery(g, id, pads);
  }

  lemma ConnectPermitted(g: Graph, id: Id, pin: PinRef)
    ensures ApplyConnect(g, id, pin).Ok? <==> Permitted(g, ConnectNet(id, pin))
  {
    HolderOfSpec(g.nets, pin);
  }

  lemma RemovePermitted(g: Graph, id: Id)
    ensures ApplyRemove(g, id).Ok? <==> Permitted(g, RemoveComponent(id))
    ensures HasComponent(g, id) && !NamedByNet(g, id) && LockedPart(g, id) ==> ApplyRemove(g, id) == Err(LockedObject)
  {
  }

  lemma PlacePermitted(g: Graph, p: Placement)
    ensures ApplyPlace(g, p).Ok? <==> Permitted(g, PlaceFootprint(p))
    ensures HasComponent(g, p.componentId) && LockedPlacement(g, p.componentId) ==> ApplyPlace(g, p) == Err(LockedObject)
  {
  }

  lemma CopperPermitted(g: Graph, op: Op)
    requires op.AddPad? || op.AddHole? || op.AddTrack? || op.AddVia? || op.AddZone?
    ensures Apply(g, op).Ok? <==> Permitted(g, op)
  {
  }

  lemma SheetPermitted(g: Graph, op: Op)
    requires op.AddComponent? || op.CreateNet? || op.AddWire? || op.AddJunction? || op.SetOutline?
    ensures Apply(g, op).Ok? <==> Permitted(g, op)
  {
  }

  /** A command is applied exactly when its own conditions hold. */
  lemma AppliesExactly(g: Graph, op: Op)
    ensures Apply(g, op).Ok? <==> Permitted(g, op)
  {
    match op
    case RemoveComponent(id) => RemovePermitted(g, id);
    case ConnectNet(id, pin) => ConnectPermitted(g, id, pin);
    case PlaceFootprint(p) => PlacePermitted(g, p);
    case AddPadGroup(id, pads) => GroupPermitted(g, id, pads);
    case _ =>
      if op.AddPad? || op.AddHole? || op.AddTrack? || op.AddVia? || op.AddZone? { CopperPermitted(g, op); } else { SheetPermitted(g, op); }
  }

  /**
   Which fault refuses a command on a valid graph: something locked, a pin that is already on the very
   net named, or else the command is invalid.
   */
  lemma RefusalsExactly(g: Graph, op: Op)
    requires NetlistOk(g) && !Permitted(g, op)
    ensures Apply(g, op) == Err(
      if op.RemoveComponent? && HasComponent(g, op.componentId) && !NamedByNet(g, op.componentId) then LockedObject
      else if op.PlaceFootprint? && HasComponent(g, op.placement.componentId) && LockedPlacement(g, op.placement.componentId) then LockedObject
      else if op.ConnectNet? && Joined(g, op.netId, op.pin) then CommandConflict
      else InvariantViolation)
  {
    AppliesExactly(g, op);
    match op
    case ConnectNet(id, pin) =>
      HolderOfSpec(g.nets, pin);
      var holder := HolderOf(g.nets, pin);
      if holder.Some? && Joined(g, id, pin) { assert Joined(g, holder.value.id, pin); }
    case _ =>
  }

  // ---------- What a staged command does ----------

  lemma CanonOf<T(!new)>(raw: seq<T>, norm: T -> T, key: T -> Key, y: T)
    ensures y in Canon(raw, norm, key) <==> exists x :: x in raw && y == norm(x)
  {
    var mapped := MapSeq(raw, norm);
    SortElements(mapped, key);
    if y in mapped {
      var i :| 0 <= i < |mapped| && mapped[i] == y;
      assert raw[i] in raw;
    }
    if x :| x in raw && y == norm(x) {
      var i :| 0 <= i < |raw| && raw[i] == x;
      assert mapped[i] == y;
    }
  }

  lemma CanonAdds<T(!new)>(xs: seq<T>, x: T, norm: T -> T, key: T -> Key)
    requires SortedFixed(xs, norm, key)
    ensures Adds(xs, norm(x), Canon(xs + [x], norm, key))
  {
    forall y ensures y in Canon(xs + [x], norm, key) <==> y in xs || y == norm(x) {
      CanonOf(xs + [x], norm, key, y);
      if y in xs { assert y in xs + [x] && norm(y) == y; }
      if y == norm(x) { assert x in xs + [x]; }
    }
  }

  lemma CanonKeeps<T(!new)>(xs: seq<T>, drop: T -> bool, norm: T -> T, key: T -> Key)
    requires SortedFixed(xs, norm, key)
    ensures Keeps(xs, drop, Canon(Without(xs, drop), norm, key))
  {
    forall y ensures y in Canon(Without(xs, drop), norm, key) <==> y in xs && !drop(y) {
      CanonOf(Without(xs, drop), norm, key, y);
    }
  }

  lemma RemoveMeans(g: Graph, id: Id)
    requires Normalize(g) == g && Tidy(g) && ApplyRemove(g, id).Ok?
    ensures Means(g, RemoveComponent(id), Normalize(ApplyRemove(g, id).value))
  {
    CanonKeeps(g.components, (c: Component) => c.id == id, NormComponent, ComponentKey);
    CanonKeeps(g.placements, (p: Placement) => p.componentId == id, NormPlacement, PlacementKey);
    CanonKeeps(g.pads, (p: Pad) => p.componentId == id, NormPad, PadKey);
    CanonKeeps(g.holes, (k: Hole) => k.componentId == id, NormHole, HoleKey);
  }

  lemma PlaceMeans(g: Graph, p: Placement)
    requires Normalize(g) == g && Tidy(g) && ApplyPlace(g, p).Ok?
    ensures Means(g, PlaceFootprint(p), Normalize(ApplyPlace(g, p).value))
  {
    var kept := Without(g.placements, (q: Placement) => q.componentId == p.componentId);
    var h := Normalize(ApplyPlace(g, p).value);
    forall q ensures q in h.placements <==> q == p || (q in g.placements && q.componentId != p.componentId) {
      CanonOf(kept + [p], NormPlacement, PlacementKey, q);
      if q == p { assert p in kept + [p]; }
      if q in kept { assert q in kept + [p]; }
    }
  }

  lemma GroupMeans(g: Graph, id: Id, pads: seq<Pad>)
    requires Normalize(g) == g && SortedFixed(g.pads, NormPad, PadKey) && ApplyPadGroup(g, id, pads).Ok?
    ensures Means(g, AddPadGroup(id, pads), Normalize(ApplyPadGroup(g, id, pads).value))
  {
    var group := MapSeq(pads, InitPad);
    var h := Normalize(ApplyPadGroup(g, id, pads).value);
    forall q ensures q in h.pads <==> q in g.pads || exists p :: p in pads && q == NormPad(InitPad(p)) {
      CanonOf(g.pads + group, NormPad, PadKey, q);
      if q in g.pads { assert q in g.pads + group && NormPad(q) == q; }
      if x :| x in g.pads + group && q == NormPad(x) {
        if x in group { InitMember(pads, x); }
      }
      if p :| p in pads && q == NormPad(InitPad(p)) {
        InitMember(pads, InitPad(p));
        assert InitPad(p) in g.pads + group;
      }
    }
  }

  lemma JoinedNets(nets: seq<Net>, id: Id, pin: PinRef, m: Net)
    ensures m in JoinIn(nets, id, pin) <==>
      exists n :: n in nets && m == if n.id == id then n.(members := n.members + [pin]) else n
  {
    var joined := JoinIn(nets, id, pin);
    if m in joined {
      var i :| 0 <= i < |joined| && joined[i] == m;
      assert nets[i] in nets;
    }
    if n :| n in nets && m == if n.id == id then n.(members := n.members + [pin]) else n {
      var i :| 0 <= i < |nets| && nets[i] == n;
      assert joined[i] == m;
    }
  }

  lemma NormJoins(n: Net, pin: PinRef)
    ensures Joins(n, pin, NormNet(n.(members := n.members + [pin])))
  {
    SortMultiset(n.members + [pin], MemberKey);
  }

  /** The net that a net of the graph becomes. */
  function Connected(n: Net, id: Id, pin: PinRef): Net {
    if n.id == id then NormNet(n.(members := n.members + [pin])) else n
  }

  lemma ConnectedNets(g: Graph, id: Id, pin: PinRef, m: Net)
    requires SortedFixed(g.nets, NormNet, NetKey)
    ensures m in Canon(JoinIn(g.nets, id, pin), NormNet, NetKey) <==> exists n :: n in g.nets && m == Connected(n, id, pin)
  {
    CanonOf(JoinIn(g.nets, id, pin), NormNet, NetKey, m);
    if x :| x in JoinIn(g.nets, id, pin) && m == NormNet(x) {
      JoinedNets(g.nets, id, pin, x);
    }
    if n :| n in g.nets && m == Connected(n, id, pin) {
      var x := if n.id == id then n.(members := n.members + [pin]) else n;
      JoinedNets(g.nets, id, pin, x);
      assert m == NormNet(x);
    }
  }

  lemma ConnectedMeans(nets: seq<Net>, id: Id, pin: PinRef, after: seq<Net>)
    requires forall m :: m in after <==> exists n :: n in nets && m == Connected(n, id, pin)
    ensures MeansConnect(nets, id, pin, after)
  {
    forall n | n in nets ensures Connected(n, id, pin) in after && (n.id == id ==> Joins(n, pin, Connected(n, id, pin))) {
      NormJoins(n, pin);
    }
    forall m | m in after ensures if m.id == id then exists n :: n in nets && Joins(n, pin, m) else m in nets {
      var n :| n in nets && m == Connected(n, id, pin);
      NormJoins(n, pin);
    }
  }

  lemma ConnectMeans(g: Graph, id: Id, pin: PinRef)
    requires Normalize(g) == g && SortedFixed(g.nets, NormNet, NetKey) && ApplyConnect(g, id, pin).Ok?
    ensures Means(g, ConnectNet(id, pin), Normalize(ApplyConnect(g, id, pin).value))
  {
    var after := Canon(JoinIn(g.nets, id, pin), NormNet, NetKey);
    assert Normalize(ApplyConnect(g, id, pin).value) == g.(nets := after);
    forall m ensures m in after <==> exists n :: n in g.nets && m == Connected(n, id, pin) { ConnectedNets(g, id, pin, m); }
    ConnectedMeans(g.nets, id, pin, after);
  }

  lemma AddPadMeans(g: Graph, p: Pad, r: Graph)
    requires Normalize(g) == g && SortedFixed(g.pads, NormPad, PadKey) && r == g.(pads := g.pads + [InitPad(p)])
    ensures Means(g, AddPad(p), Normalize(r))
  {
    CanonAdds(g.pads, InitPad(p), NormPad, PadKey);
  }

  lemma AddHoleMeans(g: Graph, k: Hole, r: Graph)
    requires Normalize(g) == g && SortedFixed(g.holes, NormHole, HoleKey) && r == g.(holes := g.holes + [InitHole(k)])
    ensures Means(g, AddHole(k), Normalize(r))
  {
    CanonAdds(g.holes, InitHole(k), NormHole, HoleKey);
  }

  lemma AddTrackMeans(g: Graph, t: Track, r: Graph)
    requires Normalize(g) == g && SortedFixed(g.tracks, NormTrack, TrackKey) && r == g.(tracks := g.tracks + [t])
    ensures Means(g, AddTrack(t), Normalize(r))
  {
    CanonAdds(g.tracks, t, NormTrack, TrackKey);
  }

  lemma AddViaMeans(g: Graph, v: Via, r: Graph)
    requires Normalize(g) == g && SortedFixed(g.vias, NormVia, ViaKey) && r == g.(vias := g.vias + [v])
    ensures Means(g, AddVia(v), Normalize(r))
  {
    CanonAdds(g.vias, v, NormVia, ViaKey);
  }

  lemma AddComponentMeans(g: Graph, c: Component, r: Graph)
    requires Normalize(g) == g && SortedFixed(g.components, NormComponent, ComponentKey) && r == g.(components := g.components + [c])
    ensures Means(g, AddComponent(c), Normalize(r))
  {
    CanonAdds(g.components, c, NormComponent, ComponentKey);
  }

  lemma AddWireMeans(g: Graph, w: Wire, r: Graph)
    requires Normalize(g) == g && SortedFixed(g.wires, NormWire, WireKey) && r == g.(wires := g.wires + [w])
    ensures Means(g, AddWire(w), Normalize(r))
  {
    CanonAdds(g.wires, w, NormWire, WireKey);
  }

  lemma AddJunctionMeans(g: Graph, j: Junction, r: Graph)
    requires Normalize(g) == g && SortedFixed(g.junctions, NormJunction, JunctionKey) && r == g.(junctions := g.junctions + [j])
    ensures Means(g, AddJunction(j), Normalize(r))
  {
    CanonAdds(g.junctions, j, NormJunction, JunctionKey);
  }

  lemma CreateNetMeans(g: Graph, id: Id, name: string, r: Graph)
    requires Normalize(g) == g && SortedFixed(g.nets, NormNet, NetKey) && r == g.(nets := g.nets + [Net(id, name, [])])
    ensures Means(g, CreateNet(id, name), Normalize(r))
  {
    CanonAdds(g.nets, Net(id, name, []), NormNet, NetKey);
  }

  lemma AddZoneMeans(g: Graph, z: Zone, r: Graph)
    requires Normalize(g) == g && SortedFixed(g.zones, NormZone, ZoneKey) && r == g.(zones := g.zones + [z]) && z.fill == Unfilled
    ensures Means(g, AddZone(z.id, z.netId, z.layer, z.outline, z.clearance, z.minThickness, z.priority, z.locked), Normalize(r))
  {
    CanonAdds(g.zones, z, NormZone, ZoneKey);
  }

  /** The commands that only append. */
  lemma AppendedGraph(g: Graph, op: Op)
    requires Apply(g, op).Ok?
    ensures var r := Apply(g, op).value;
            match op
            case AddComponent(c) => r == g.(components := g.components + [c])
            case CreateNet(id, name) => r == g.(nets := g.nets + [Net(id, name, [])])
            case AddPad(p) => r == g.(pads := g.pads + [InitPad(p)])
            case AddHole(k) => r == g.(holes := g.holes + [InitHole(k)])
            case AddTrack(t) => r == g.(tracks := g.tracks + [t])
            case AddVia(v) => r == g.(vias := g.vias + [v])
            case AddZone(id, net, layer, outline, clearance, thickness, priority, locked) =>
              r == g.(zones := g.zones + [Zone(id, net, layer, outline, clearance, thickness, priority, locked, Unfilled)])
            case AddWire(w) => r == g.(wires := g.wires + [w])
            case AddJunction(j) => r == g.(junctions := g.junctions + [j])
            case SetOutline(v) => r == g.(outline := v)
            case _ => true
  {
  }

  lemma SetOutlineMeans(g: Graph, v: Ring, r: Graph)
    requires Normalize(g) == g && r == g.(outline := v)
    ensures Means(g, SetOutline(v), Normalize(r))
  {
  }

  lemma AppliedMeans(g: Graph, op: Op)
    requires Normalize(g) == g && Tidy(g) && Apply(g, op).Ok?
    ensures Means(g, op, Normalize(Apply(g, op).value))
  {
    var r := Apply(g, op).value;
    AppendedGraph(g, op);
    match op
    case AddComponent(c) => AddComponentMeans(g, c, r);
    case RemoveComponent(id) => RemoveMeans(g, id);
    case CreateNet(id, name) => CreateNetMeans(g, id, name, r);
    case ConnectNet(id, pin) => ConnectMeans(g, id, pin);
    case PlaceFootprint(p) => PlaceMeans(g, p);
    case AddPad(p) => AddPadMeans(g, p, r);
    case AddPadGroup(id, pads) => GroupMeans(g, id, pads);
    case AddHole(k) => AddHoleMeans(g, k, r);
    case AddTrack(t) => AddTrackMeans(g, t, r);
    case AddVia(v) => AddViaMeans(g, v, r);
    case AddZone(id, net, layer, outline, clearance, thickness, priority, locked) =>
      AddZoneMeans(g, Zone(id, net, layer, outline, clearance, thickness, priority, locked, Unfilled), r);
    case AddWire(w) => AddWireMeans(g, w, r);
    case AddJunction(j) => AddJunctionMeans(g, j, r);
    case SetOutline(v) => SetOutlineMeans(g, v, r);
  }

  /**
   A command staged on a valid canonical graph succeeds only if its own conditions hold, and then
   does to the graph exactly what it says: the named objects come or go and everything else stays.
   */
  lemma StagedCommandMeans(g: Graph, op: Op, h: Graph)
    requires Settled(g) && Step(g, op) == Ok(h)
    ensures Permitted(g, op) && Settled(h) && Means(g, op, h)
  {
    StepSettles(g, op);
    NormalIsTidy(g);
    AppliesExactly(g, op);
    AppliedMeans(g, op);
  }

  // ---------- Removing and placing always leave a valid graph ----------

  /** `r` is `g` without the component and what belongs to it. */
  ghost predicate Stripped(g: Graph, id: Id, r: Graph) {
    && r == g.(components := r.components, placements := r.placements, pads := r.pads, holes := r.holes)
    && Keeps(g.components, (c: Component) => c.id == id, r.components)
    && Keeps(g.placements, (p: Placement) => p.componentId == id, r.placements)
    && Keeps(g.pads, (p: Pad) => p.componentId == id, r.pads)
    && Keeps(g.holes, (k: Hole) => k.componentId == id, r.holes)
  }

  lemma StrippedIds(g: Graph, id: Id, r: Graph)
    requires IdsUnique(g) && ApplyRemove(g, id) == Ok(r)
    ensures IdsUnique(r)
  {
    WithoutIsSubsequence(g.components, (c: Component) => c.id == id, ComponentKey);
    WithoutIsSubsequence(g.components, (c: Component) => c.id == id, ReferenceKey);
    WithoutIsSubsequence(g.placements, (p: Placement) => p.componentId == id, PlacementKey);
    WithoutIsSubsequence(g.pads, (p: Pad) => p.componentId == id, PadKey);
    WithoutIsSubsequence(g.holes, (k: Hole) => k.componentId == id, HoleKey);
  }

  lemma StrippedContext(g: Graph, id: Id, r: Graph, other: Id)
    requires Stripped(g, id, r) && other != id
    ensures HasComponent(g, other) ==> HasComponent(r, other)
    ensures HasPlacement(g, other) ==> HasPlacement(r, other)
    ensures forall n :: HasPin(g, other, n) ==> HasPin(r, other, n)
    ensures forall pad, n :: PinOfPad(g, other, pad, n) <==> PinOfPad(r, other, pad, n)
  {
    if HasComponent(g, other) {
      var c :| c in g.components && c.id == other;
      assert c in r.components;
    }
    if HasPlacement(g, other) {
      var p :| p in g.placements && p.componentId == other;
      assert p in r.placements;
    }
    forall n | HasPin(g, other, n) ensures HasPin(r, other, n) {
      var c, p :| c in g.components && c.id == other && p in c.pins && p.number == n;
      assert c in r.components;
    }
    forall pad, n ensures PinOfPad(g, other, pad, n) <==> PinOfPad(r, other, pad, n) {
      if PinOfPad(g, other, pad, n) {
        var c, p :| c in g.components && c.id == other && p in c.pins && p.padNumber == pad && p.number == n;
        assert c in r.components;
      }
    }
  }

  lemma StrippedNetlist(g: Graph, id: Id, r: Graph)
    requires Stripped(g, id, r) && NetlistOk(g) && !NamedByNet(g, id)
    ensures NetlistOk(r)
  {
    forall n, m | n in r.nets && m in n.members ensures HasPin(r, m.componentId, m.pin) {
      StrippedContext(g, id, r, m.componentId);
    }
    forall a, b, m | Joined(r, a, m) && Joined(r, b, m) ensures a == b {
      assert Joined(g, a, m) && Joined(g, b, m);
    }
    forall p | p in r.placements ensures HasComponent(r, p.componentId) {
      assert p in g.placements;
      StrippedContext(g, id, r, p.componentId);
    }
    forall t | t in r.tracks ensures TrackOk(r, t) { assert TrackOk(g, t); }
  }

  lemma StrippedPad(g: Graph, id: Id, r: Graph, p: Pad)
    requires Stripped(g, id, r) && PadOk(g, p) && p.componentId != id
    ensures PadOk(r, p)
  {
    StrippedContext(g, id, r, p.componentId);
    var number :| PinOfPad(g, p.componentId, p.padNumber, number);
    assert PinOfPad(r, p.componentId, p.padNumber, number);
    assert p.netId.Some? ==> HasNet(r, p.netId.value);
    forall number, netId | PinOfPad(r, p.componentId, p.padNumber, number) && Joined(r, netId, PinRef(p.componentId, number))
      ensures p.netId == Some(netId)
    {
      assert Joined(g, netId, PinRef(p.componentId, number));
    }
  }

  lemma StrippedPadRules(gs: seq<Pad>, id: Id, rs: seq<Pad>)
    requires PadRulesOk(gs) && Keeps(gs, (p: Pad) => p.componentId == id, rs)
    ensures PadRulesOk(rs)
  {
    forall p, q | p in rs && q in rs ensures PadPairOk(p, q) { assert p in gs && q in gs; }
    forall p ensures Mated(rs, p) {
      if p in rs && p.landGroup.Some? {
        assert p in gs && Mated(gs, p);
        var q :| q in gs && q.landGroup == p.landGroup && q.id != p.id;
        assert PadPairOk(p, q);
        assert q in rs;
      }
    }
  }

  lemma StrippedHole(g: Graph, id: Id, r: Graph, k: Hole)
    requires Stripped(g, id, r) && HoleOk(g, k) && k.componentId != id
    ensures HoleOk(r, k)
  {
    StrippedContext(g, id, r, k.componentId);
    if k.padId.Some? {
      var p :| p in g.pads && p.id == k.padId.value && PadFitsHole(p, k);
      assert p in r.pads;
    }
  }

  lemma StrippedPads(g: Graph, id: Id, r: Graph)
    requires Stripped(g, id, r) && PadsOk(g)
    ensures PadsOk(r)
  {
    forall p | p in r.pads ensures PadOk(r, p) {
      assert p in g.pads && PadOk(g, p);
      StrippedPad(g, id, r, p);
    }
    StrippedPadRules(g.pads, id, r.pads);
  }

  lemma StrippedCopper(g: Graph, id: Id, r: Graph)
    requires Stripped(g, id, r) && CopperOk(g)
    ensures CopperOk(r)
  {
    forall k | k in r.holes ensures HoleOk(r, k) {
      assert k in g.holes && HoleOk(g, k);
      StrippedHole(g, id, r, k);
    }
    forall h, k | h in r.holes && k in r.holes && h.padId.Some? && h.padId == k.padId ensures h.id == k.id {
      assert h in g.holes && k in g.holes;
    }
    forall v | v in r.vias ensures ViaOk(r, v) { assert ViaOk(g, v); }
    forall z | z in r.zones ensures ZoneOk(r, z) { assert ZoneOk(g, z); }
  }

  lemma SameSchematic(g: Graph, r: Graph)
    requires SchematicOk(g) && r.nets == g.nets && r.wires == g.wires && r.junctions == g.junctions
    ensures SchematicOk(r)
  {
    forall w | w in r.wires ensures HasNet(r, w.netId) { assert HasNet(g, w.netId); }
    forall j | j in r.junctions ensures JunctionOk(r, j) { assert JunctionOk(g, j); }
  }

  lemma RemovedIsStripped(g: Graph, id: Id, r: Graph)
    requires ApplyRemove(g, id) == Ok(r)
    ensures Stripped(g, id, r) && !NamedByNet(g, id)
  {
    RemovePermitted(g, id);
  }

  lemma RemovedValid(g: Graph, id: Id, r: Graph)
    requires Valid(g) && ApplyRemove(g, id) == Ok(r)
    ensures Valid(r)
  {
    RemovedIsStripped(g, id, r);
    StrippedIds(g, id, r);
    StrippedNetlist(g, id, r);
    StrippedPads(g, id, r);
    StrippedCopper(g, id, r);
    SameSchematic(g, r);
  }

  /** A step whose raw result is valid succeeds. */
  lemma ValidStep(g: Graph, op: Op, r: Graph)
    requires WfGraph(g) && Apply(g, op) == Ok(r) && Valid(r)
    ensures Step(g, op) == Ok(Normalize(r))
  {
    ApplyKeepsWf(g, op);
    NormalizeKeepsValidity(r);
  }

  /**
   Removing a component from a valid staged graph succeeds exactly when the component is known, no
   net names it and nothing of it is locked; then it and its placement, pads and holes go, and all else stays.
   */
  lemma RemoveComponentExactly(g: Graph, id: Id)
    requires Settled(g)
    ensures Step(g, RemoveComponent(id)).Ok? <==> HasComponent(g, id) && !NamedByNet(g, id) && !LockedPart(g, id)
    ensures HasComponent(g, id) && !NamedByNet(g, id) && LockedPart(g, id) ==> Step(g, RemoveComponent(id)) == Err(LockedObject)
    ensures Step(g, RemoveComponent(id)).Ok? ==> Means(g, RemoveComponent(id), Step(g, RemoveComponent(id)).value)
  {
    RemovePermitted(g, id);
    if ApplyRemove(g, id).Ok? {
      RemovedValid(g, id, ApplyRemove(g, id).value);
      ValidStep(g, RemoveComponent(id), ApplyRemove(g, id).value);
    }
    if Step(g, RemoveComponent(id)).Ok? {
      StagedCommandMeans(g, RemoveComponent(id), Step(g, RemoveComponent(id)).value);
    }
  }

  // ---------- Placing ----------

  /** `r` is `g` with the placement of one known component set. */
  ghost predicate Moved(g: Graph, p: Placement, r: Graph) {
    && r == g.(placements := r.placements) && HasComponent(g, p.componentId)
    && forall q :: q in r.placements <==> q == p || (q in g.placements && q.componentId != p.componentId)
  }

  lemma MovedPlacements(g: Graph, p: Placement, r: Graph, other: Id)
    requires Moved(g, p, r) && HasPlacement(g, other)
    ensures HasPlacement(r, other)
  {
    var q :| q in g.placements && q.componentId == other;
    assert p in r.placements;
    assert q.componentId != p.componentId ==> q in r.placements;
  }

  lemma MovedIds(g: Graph, p: Placement)
    requires UniqueKeys(g.placements, PlacementKey)
    ensures UniqueKeys(Without(g.placements, (q: Placement) => q.componentId == p.componentId) + [p], PlacementKey)
  {
    var kept := Without(g.placements, (q: Placement) => q.componentId == p.componentId);
    WithoutIsSubsequence(g.placements, (q: Placement) => q.componentId == p.componentId, PlacementKey);
    var all := kept + [p];
    forall i, j | 0 <= i < j < |all| ensures PlacementKey(all[i]) != PlacementKey(all[j]) {
      if j == |kept| {
        assert kept[i] in kept;
        if PlacementKey(kept[i]) == PlacementKey(p) { CodesInjective(kept[i].componentId, p.componentId); }
      }
    }
  }

  lemma MovedNetlist(g: Graph, p: Placement, r: Graph)
    requires Moved(g, p, r) && NetlistOk(g)
    ensures NetlistOk(r)
  {
    forall n, m | n in r.nets && m in n.members ensures HasPin(r, m.componentId, m.pin) { assert HasPin(g, m.componentId, m.pin); }
    forall a, b, m | Joined(r, a, m) && Joined(r, b, m) ensures a == b { assert Joined(g, a, m) && Joined(g, b, m); }
    forall q | q in r.placements ensures HasComponent(r, q.componentId) {
      assert HasComponent(g, q.componentId);
    }
    forall t | t in r.tracks ensures TrackOk(r, t) { assert TrackOk(g, t); }
  }

  lemma MovedPads(g: Graph, p: Placement, r: Graph)
    requires Moved(g, p, r) && PadsOk(g)
    ensures PadsOk(r)
  {
    forall q | q in r.pads ensures PadOk(r, q) {
      assert PadOk(g, q);
      MovedPlacements(g, p, r, q.componentId);
      MovedPad(g, p, r, q);
    }
  }

  lemma MovedPad(g: Graph, p: Placement, r: Graph, q: Pad)
    requires Moved(g, p, r) && PadOk(g, q) && HasPlacement(r, q.componentId)
    ensures PadOk(r, q)
  {
    assert HasComponent(r, q.componentId);
    var number :| PinOfPad(g, q.componentId, q.padNumber, number);
    assert PinOfPad(r, q.componentId, q.padNumber, number);
    assert q.netId.Some? ==> HasNet(r, q.netId.value);
    forall number, netId | PinOfPad(r, q.componentId, q.padNumber, number) && Joined(r, netId, PinRef(q.componentId, number))
      ensures q.netId == Some(netId)
    {
      assert PinOfPad(g, q.componentId, q.padNumber, number) && Joined(g, netId, PinRef(q.componentId, number));
    }
  }

  lemma MovedCopper(g: Graph, p: Placement, r: Graph)
    requires Moved(g, p, r) && CopperOk(g)
    ensures CopperOk(r)
  {
    forall k | k in r.holes ensures HoleOk(r, k) {
      assert HoleOk(g, k) && HasComponent(r, k.componentId);
      MovedPlacements(g, p, r, k.componentId);
    }
    forall v | v in r.vias ensures ViaOk(r, v) { assert ViaOk(g, v); }
    forall z | z in r.zones ensures ZoneOk(r, z) { assert ZoneOk(g, z); }
  }

  lemma PlacedIsMoved(g: Graph, p: Placement, r: Graph)
    requires ApplyPlace(g, p) == Ok(r)
    ensures Moved(g, p, r)
  {
    var kept := Without(g.placements, (q: Placement) => q.componentId == p.componentId);
    assert forall q :: q in kept + [p] <==> q in kept || q == p;
  }

  lemma PlacedValid(g: Graph, p: Placement, r: Graph)
    requires Valid(g) && ApplyPlace(g, p) == Ok(r)
    ensures Valid(r)
  {
    PlacedIsMoved(g, p, r);
    MovedIds(g, p);
    MovedNetlist(g, p, r);
    MovedPads(g, p, r);
    MovedCopper(g, p, r);
    SameSchematic(g, r);
  }

  /**
   Placing a footprint on a valid staged graph succeeds exactly for a known component, a rotation
   within one turn and no locked placement of that component; then it replaces that component's placement alone.
   */
  lemma PlaceFootprintExactly(g: Graph, p: Placement)
    requires Settled(g)
    ensures Step(g, PlaceFootprint(p)).Ok? <==> HasComponent(g, p.componentId) && !LockedPlacement(g, p.componentId) && WfPlacement(p)
    ensures HasComponent(g, p.componentId) && LockedPlacement(g, p.componentId) ==> Step(g, PlaceFootprint(p)) == Err(LockedObject)
    ensures Step(g, PlaceFootprint(p)).Ok? ==> Means(g, PlaceFootprint(p), Step(g, PlaceFootprint(p)).value)
  {
    PlacePermitted(g, p);
    if ApplyPlace(g, p).Ok? {
      PlacedValid(g, p, ApplyPlace(g, p).value);
      ValidStep(g, PlaceFootprint(p), ApplyPlace(g, p).value);
    }
    if Step(g, PlaceFootprint(p)).Ok? {
      StagedCommandMeans(g, PlaceFootprint(p), Step(g, PlaceFootprint(p)).value);
    }
  }
}
