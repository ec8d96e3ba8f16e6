/**
 The design graph of backend/design_kernel/model.py: its records, what their constructors
 demand (`Wf...`), the canonical form of each record and of the graph, and the rules of
 `validate_graph` as one predicate over unordered collections.
 */
module Graph {
  import opened Lex
  import opened Sorting
  import opened Geometry
  import opened Ring
  import opened Polygon
  import opened Wiring

  type Id = string

  datatype Option<+T> = None | Some(value: T)

  // ---------- Records ----------

  datatype PinRef = PinRef(componentId: Id, pin: Id)
  datatype Pin = Pin(number: Id, name: string, electricalType: Id, padNumber: Id, required: bool)
  datatype Component = Component(
    id: Id, reference: Id, value: string, partNumber: string, package: string,
    symbol: string, footprint: string, datasheet: string, pinMap: string, pins: seq<Pin>)
  datatype Net = Net(id: Id, name: string, members: seq<PinRef>)
  datatype Side = Front | Back
  datatype Placement = Placement(componentId: Id, position: Point, rotation: int, side: Side, locked: bool)
  datatype Shape = Circle | Oval | Rect | RoundRect
  datatype Pad = Pad(
    id: Id, componentId: Id, padNumber: Id, center: Point, sizeX: int, sizeY: int, shape: Shape,
    rotation: int, layers: seq<string>, drill: int, netId: Option<Id>, locked: bool,
    drillX: int, drillY: int, drillRotation: int, landGroup: Option<Id>)
  datatype Hole = Hole(
    id: Id, componentId: Id, center: Point, diameter: int, plated: bool, padId: Option<Id>, locked: bool,
    drillX: int, drillY: int, drillRotation: int)
  datatype Via = Via(id: Id, netId: Id, center: Point, diameter: int, drill: int, layers: seq<string>, locked: bool)
  datatype FilledGeometry = FilledGeometry(zoneId: Id, netId: Id, layer: string, ring: Ring, clearance: int)
  datatype Fill = Unfilled | Filled(source: string, engine: string, geometry: FilledGeometry)
  datatype Zone = Zone(
    id: Id, netId: Id, layer: string, outline: Ring, clearance: int, minThickness: int, priority: int,
    locked: bool, fill: Fill)
  datatype Wire = Wire(id: Id, netId: Id, vertices: Path, sheetId: Id, locked: bool)
  datatype Junction = Junction(id: Id, netId: Id, position: Point, sheetId: Id, locked: bool)
  datatype Track = Track(id: Id, netId: Id, layer: string, start: Point, end: Point, width: int, locked: bool)

  datatype Graph = Graph(
    schemaVersion: int, projectId: Id, layers: seq<string>, outline: Ring,
    components: seq<Component>, nets: seq<Net>, placements: seq<Placement>, tracks: seq<Track>,
    pads: seq<Pad>, holes: seq<Hole>, vias: seq<Via>, zones: seq<Zone>,
    wires: seq<Wire>, junctions: seq<Junction>)

  // ---------- Sort keys ----------

  function LayerKey(l: string): Key { Codes(l) }
  function PinKey(p: Pin): Key { Codes(p.number) }
  function PadNumberKey(p: Pin): Key { Codes(p.padNumber) }
  /** Tuple order of (component, pin): the separator is below every code point. */
  function MemberKey(m: PinRef): Key { Codes(m.componentId) + [-1] + Codes(m.pin) }
  function ComponentKey(c: Component): Key { Codes(c.id) }
  function ReferenceKey(c: Component): Key { Codes(c.reference) }
  function NetKey(n: Net): Key { Codes(n.id) }
  function NetNameKey(n: Net): Key { Codes(n.name) }
  function PlacementKey(p: Placement): Key { Codes(p.componentId) }
  function TrackKey(t: Track): Key { Codes(t.id) }
  function PadKey(p: Pad): Key { Codes(p.id) }
  function HoleKey(h: Hole): Key { Codes(h.id) }
  function ViaKey(v: Via): Key { Codes(v.id) }
  function ZoneKey(z: Zone): Key { Codes(z.id) }
  function WireKey(w: Wire): Key { Codes(w.id) }
  function JunctionKey(j: Junction): Key { Codes(j.id) }

  // ---------- What the constructors demand ----------

  const FULL_TURN := 360_000_000
  const HALF_TURN := 180_000_000

  predicate Angle(r: int) { 0 <= r < FULL_TURN }

  predicate WfComponent(c: Component) {
    c.pins != [] && UniqueKeys(c.pins, PinKey) && UniqueKeys(c.pins, PadNumberKey)
  }

  predicate WfNet(n: Net) { NoRepeat(n.members) }

  predicate WfPlacement(p: Placement) { Angle(p.rotation) }

  predicate WfPad(p: Pad) {
    && p.sizeX > 0 && p.sizeY > 0 && Angle(p.rotation)
    && p.layers != [] && NoRepeat(p.layers)
    && p.drill >= 0 && p.drillX >= 0 && p.drillY >= 0
    && (p.drillX == 0 <==> p.drillY == 0)
    && (p.drillX > 0 ==> p.drill == Min(p.drillX, p.drillY) && p.drillX < p.sizeX && p.drillY < p.sizeY)
    && (p.drillX == 0 ==> p.drill == 0)
    && Angle(p.drillRotation)
    && (p.drillX == p.drillY ==> p.drillRotation == 0 || p.drillRotation == HALF_TURN)
    && (p.drillX > 0 ==> |p.layers| >= 2)
  }

  predicate WfHole(h: Hole) {
    && h.diameter > 0 && h.drillX > 0 && h.drillY > 0
    && h.diameter == Min(h.drillX, h.drillY)
    && Angle(h.drillRotation)
    && (h.drillX == h.drillY ==> h.drillRotation == 0 || h.drillRotation == HALF_TURN)
    && (h.plated <==> h.padId.Some?)
  }

  predicate WfVia(v: Via) {
    0 < v.drill < v.diameter && |v.layers| >= 2 && NoRepeat(v.layers)
  }

  function GeometryOf(z: Zone): FilledGeometry {
    FilledGeometry(z.id, z.netId, z.layer, NormalizedRing(z.outline), z.clearance)
  }

  predicate WfZone(z: Zone) {
    && AcceptedPolygon(z.outline)
    && z.clearance >= 0 && z.minThickness > 0 && z.priority >= 0
    && (z.fill.Filled? ==> z.fill.geometry == GeometryOf(z))
  }

  predicate WfWire(w: Wire) { AcceptedPath(w.vertices) }

  predicate WfTrack(t: Track) { t.width > 0 && t.start != t.end }

  ghost predicate WfGraph(g: Graph) {
    && (forall c :: c in g.components ==> WfComponent(c))
    && (forall n :: n in g.nets ==> WfNet(n))
    && (forall p :: p in g.placements ==> WfPlacement(p))
    && (forall t :: t in g.tracks ==> WfTrack(t))
    && (forall p :: p in g.pads ==> WfPad(p))
    && (forall h :: h in g.holes ==> WfHole(h))
    && (forall v :: v in g.vias ==> WfVia(v))
    && (forall z :: z in g.zones ==> WfZone(z))
    && (forall w :: w in g.wires ==> WfWire(w))
  }

  // ---------- Canonical form ----------

  function MapSeq<T, U>(xs: seq<T>, f: T -> U): (ys: seq<U>)
    ensures |ys| == |xs| && forall i :: 0 <= i < |xs| ==> ys[i] == f(xs[i])
  {
    seq(|xs|, i requires 0 <= i < |xs| => f(xs[i]))
  }

  function NormComponent(c: Component): Component { c.(pins := SortBy(c.pins, PinKey)) }
  function NormNet(n: Net): Net { n.(members := SortBy(n.members, MemberKey)) }
  function NormPlacement(p: Placement): Placement { p }
  function NormTrack(t: Track): Track {
    if PointLe(t.start, t.end) then t else t.(start := t.end, end := t.start)
  }
  function NormRotation(drillX: int, drillY: int, r: int): int {
    if drillX == drillY then 0 else r % HALF_TURN
  }
  function NormPad(p: Pad): Pad {
    p.(layers := SortBy(p.layers, LayerKey), drillRotation := NormRotation(p.drillX, p.drillY, p.drillRotation))
  }
  function NormHole(h: Hole): Hole {
    h.(drillRotation := NormRotation(h.drillX, h.drillY, h.drillRotation))
  }
  function NormVia(v: Via): Via { v.(layers := SortBy(v.layers, LayerKey)) }
  function NormZone(z: Zone): Zone { z.(outline := NormalizedRing(z.outline)) }
  function NormPath(v: Path): Path { if RingLe(v, Reverse(v)) then v else Reverse(v) }
  function NormWire(w: Wire): Wire { w.(vertices := NormPath(w.vertices)) }
  function NormJunction(j: Junction): Junction { j }

  function Canon<T, U>(xs: seq<T>, norm: T -> U, key: U -> Key): seq<U> {
    SortBy(MapSeq(xs, norm), key)
  }

  function Normalize(g: Graph): Graph {
    g.(layers := SortBy(g.layers, LayerKey),
       outline := NormalizedRing(g.outline),
       components := Canon(g.components, NormComponent, ComponentKey),
       nets := Canon(g.nets, NormNet, NetKey),
       placements := Canon(g.placements, NormPlacement, PlacementKey),
       tracks := Canon(g.tracks, NormTrack, TrackKey),
       pads := Canon(g.pads, NormPad, PadKey),
       holes := Canon(g.holes, NormHole, HoleKey),
       vias := Canon(g.vias, NormVia, ViaKey),
       zones := Canon(g.zones, NormZone, ZoneKey),
       wires := Canon(g.wires, NormWire, WireKey),
       junctions := Canon(g.junctions, NormJunction, JunctionKey))
  }

  // ---------- What a record may refer to ----------

  ghost predicate HasComponent(g: Graph, id: Id) { exists c :: c in g.components && c.id == id }

  ghost predicate HasPin(g: Graph, componentId: Id, number: Id) {
    exists c, p :: c in g.components && c.id == componentId && p in c.pins && p.number == number
  }

  ghost predicate PinOfPad(g: Graph, componentId: Id, padNumber: Id, number: Id) {
    exists c, p :: c in g.components && c.id == componentId && p in c.pins && p.padNumber == padNumber && p.number == number
  }

  ghost predicate HasNet(g: Graph, id: Id) { exists n :: n in g.nets && n.id == id }

  ghost predicate Joined(g: Graph, netId: Id, m: PinRef) { exists n :: n in g.nets && n.id == netId && m in n.members }

  ghost predicate HasPlacement(g: Graph, id: Id) { exists p :: p in g.placements && p.componentId == id }

  // ---------- The rules of validate_graph ----------

  ghost predicate IdsUnique(g: Graph) {
    && UniqueKeys(g.components, ComponentKey) && UniqueKeys(g.components, ReferenceKey)
    && UniqueKeys(g.nets, NetKey) && UniqueKeys(g.nets, NetNameKey)
    && UniqueKeys(g.placements, PlacementKey) && UniqueKeys(g.tracks, TrackKey)
    && UniqueKeys(g.pads, PadKey) && UniqueKeys(g.holes, HoleKey)
    && UniqueKeys(g.vias, ViaKey) && UniqueKeys(g.zones, ZoneKey)
    && UniqueKeys(g.wires, WireKey) && UniqueKeys(g.junctions, JunctionKey)
  }

  ghost predicate MembersKnown(g: Graph) {
    forall n, m :: n in g.nets && m in n.members ==> HasPin(g, m.componentId, m.pin)
  }

  ghost predicate PinsOnOneNet(g: Graph) {
    forall a, b, m :: Joined(g, a, m) && Joined(g, b, m) ==> a == b
  }

  ghost predicate PlacementsOk(g: Graph) {
    forall p :: p in g.placements ==> HasComponent(g, p.componentId)
  }

  ghost predicate TrackOk(g: Graph, t: Track) { HasNet(g, t.netId) && t.layer in g.layers }

  ghost predicate PadOk(g: Graph, p: Pad) {
    && HasComponent(g, p.componentId) && HasPlacement(g, p.componentId)
    && (exists number :: PinOfPad(g, p.componentId, p.padNumber, number))
    && (forall l :: l in p.layers ==> l in g.layers)
    && (p.netId.Some? ==> HasNet(g, p.netId.value))
    && (forall number, netId ::
          PinOfPad(g, p.componentId, p.padNumber, number) && Joined(g, netId, PinRef(p.componentId, number)) ==>
          p.netId == Some(netId))
  }

  datatype Land = Land(
    componentId: Id, center: Point, sizeX: int, sizeY: int, shape: Shape, rotation: int, layers: seq<string>,
    drillX: int, drillY: int, drillRotation: int, netId: Option<Id>)

  function LandOf(p: Pad): Land {
    var q := NormPad(p);
    Land(q.componentId, q.center, q.sizeX, q.sizeY, q.shape, q.rotation, q.layers,
         q.drillX, q.drillY, q.drillRotation, q.netId)
  }

  /** What a grouped pad `p` demands of any pad `q`. */
  ghost predicate LandPairOk(p: Pad, q: Pad) {
    if q.landGroup == p.landGroup then
      && q.componentId == p.componentId
      && LandOf(q) == LandOf(p)
      && (q.id != p.id ==> q.padNumber != p.padNumber)
    else LandOf(q) != LandOf(p)
  }

  /**
   Physical pads of one logical pad agree on their net; pads of one shared-land group agree
   on component and copper, and no pad outside the group has the same copper.
   */
  ghost predicate PadPairOk(p: Pad, q: Pad) {
    && (p.componentId == q.componentId && p.padNumber == q.padNumber ==> p.netId == q.netId)
    && (p.landGroup.Some? ==> LandPairOk(p, q))
  }

  ghost predicate HasLandMate(pads: seq<Pad>, p: Pad) {
    exists q :: q in pads && q.landGroup == p.landGroup && q.id != p.id
  }

  /** A pad of a shared-land group is not alone in it. */
  ghost predicate Mated(pads: seq<Pad>, p: Pad) { p in pads && p.landGroup.Some? ==> HasLandMate(pads, p) }

  ghost predicate PadRulesOk(pads: seq<Pad>) {
    && (forall p, q :: p in pads && q in pads ==> PadPairOk(p, q))
    && (forall p :: Mated(pads, p))
  }

  ghost predicate PadFitsHole(p: Pad, h: Hole) {
    && p.componentId == h.componentId
    && p.drillX == h.drillX && p.drillY == h.drillY
    && NormPad(p).drillRotation == NormHole(h).drillRotation
    && p.center == h.center
  }

  ghost predicate HoleHasPad(pads: seq<Pad>, h: Hole) {
    h.padId.Some? ==> exists p :: p in pads && p.id == h.padId.value && PadFitsHole(p, h)
  }

  ghost predicate HoleOk(g: Graph, h: Hole) {
    HasComponent(g, h.componentId) && HasPlacement(g, h.componentId) && HoleHasPad(g.pads, h)
  }

  ghost predicate HolesBindOnce(g: Graph) {
    forall h, k :: h in g.holes && k in g.holes && h.padId.Some? && h.padId == k.padId ==> h.id == k.id
  }

  ghost predicate ViaOk(g: Graph, v: Via) { HasNet(g, v.netId) && forall l :: l in v.layers ==> l in g.layers }

  ghost predicate ZoneOk(g: Graph, z: Zone) {
    HasNet(g, z.netId) && z.layer in g.layers && AcceptedPolygon(z.outline)
  }

  ghost predicate WirePairOk(u: Wire, v: Wire) {
    u.id != v.id && u.sheetId == v.sheetId ==> PathsClear(u.vertices, v.vertices, u.netId == v.netId)
  }

  ghost predicate WirePairsOk(wires: seq<Wire>) {
    forall u, v :: u in wires && v in wires ==> WirePairOk(u, v)
  }

  ghost predicate Supports(w: Wire, j: Junction) {
    w.sheetId == j.sheetId && w.netId == j.netId && OnPath(j.position, w.vertices)
  }

  ghost predicate JoinsTwo(wires: seq<Wire>, j: Junction) {
    exists u, v :: u in wires && v in wires && u.id != v.id && Supports(u, j) && Supports(v, j)
  }

  ghost predicate JunctionOk(g: Graph, j: Junction) { HasNet(g, j.netId) && JoinsTwo(g.wires, j) }

  ghost predicate JunctionsApart(g: Graph) {
    forall j, k :: j in g.junctions && k in g.junctions && j.sheetId == k.sheetId && j.position == k.position ==> j.id == k.id
  }

  ghost predicate FrameOk(g: Graph) {
    && g.schemaVersion == 1
    && g.layers != [] && UniqueKeys(g.layers, LayerKey)
    && (g.outline == [] || AcceptedPolygon(g.outline))
  }

  ghost predicate NetlistOk(g: Graph) {
    && MembersKnown(g) && PinsOnOneNet(g) && PlacementsOk(g)
    && forall t :: t in g.tracks ==> TrackOk(g, t)
  }

  ghost predicate PadsOk(g: Graph) {
    (forall p :: p in g.pads ==> PadOk(g, p)) && PadRulesOk(g.pads)
  }

  ghost predicate CopperOk(g: Graph) {
    && (forall h :: h in g.holes ==> HoleOk(g, h)) && HolesBindOnce(g)
    && (forall v :: v in g.vias ==> ViaOk(g, v))
    && (forall z :: z in g.zones ==> ZoneOk(g, z))
  }

  ghost predicate SchematicOk(g: Graph) {
    && (forall w :: w in g.wires ==> HasNet(g, w.netId)) && WirePairsOk(g.wires)
    && (forall j :: j in g.junctions ==> JunctionOk(g, j)) && JunctionsApart(g)
  }

  /** The graphs validate_graph accepts. */
  ghost predicate Valid(g: Graph) {
    FrameOk(g) && IdsUnique(g) && NetlistOk(g) && PadsOk(g) && CopperOk(g) && SchematicOk(g)
  }
}
