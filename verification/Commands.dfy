/**
 Command interpreter of the kernel (backend/design_kernel/engine.py:796-1163).  Payloads are
 typed records; building a record runs the checks and defaults of its constructor.
 */
module Commands {
  import opened Lex
  import opened Sorting
  import opened Geometry
  import opened Ring
  import opened Polygon
  import opened Wiring
  import opened Graph
  import opened Mirror
  import opened Normalization
  import Validation

  datatype Fault =
    | InvariantViolation | CommandConflict | LockedObject | StaleRevision
    | ApprovalMismatch | NotCommittable | UnknownTransaction | Unauthorized | Replayed

  datatype Result<+T> = Ok(value: T) | Err(fault: Fault)

  datatype Op =
    | AddComponent(component: Component)
    | RemoveComponent(componentId: Id)
    | CreateNet(netId: Id, name: string)
    | ConnectNet(netId: Id, pin: PinRef)
    | PlaceFootprint(placement: Placement)
    | AddPad(pad: Pad)
    | AddPadGroup(groupId: Id, pads: seq<Pad>)
    | AddHole(hole: Hole)
    | AddTrack(track: Track)
    | AddVia(via: Via)
    | AddZone(zoneId: Id, zoneNet: Id, layer: string, outline: Ring, clearance: int, minThickness: int, priority: int, locked: bool)
    | AddWire(wire: Wire)
    | AddJunction(junction: Junction)
    | SetOutline(vertices: Ring)

  /** Drill fields the pad constructor fills in from one another. */
  function InitPad(p: Pad): Pad {
    var q := if p.drillX == 0 && p.drillY == 0 && p.drill > 0 then p.(drillX := p.drill, drillY := p.drill) else p;
    if q.drillX > 0 && q.drill == 0 then q.(drill := Min(q.drillX, q.drillY)) else q
  }

  function InitHole(h: Hole): Hole {
    if h.drillX == 0 && h.drillY == 0 then h.(drillX := h.diameter, drillY := h.diameter) else h
  }

  function Without<T(!new)>(xs: seq<T>, drop: T -> bool): (ys: seq<T>)
    ensures forall x :: x in ys <==> x in xs && !drop(x)
  {
    if xs == [] then []
    else if drop(xs[0]) then Without(xs[1..], drop)
    else [xs[0]] + Without(xs[1..], drop)
  }

  lemma {:induction false} WithoutIsSubsequence<T(!new)>(xs: seq<T>, drop: T -> bool, key: T -> Key)
    requires UniqueKeys(xs, key)
    ensures UniqueKeys(Without(xs, drop), key)
  {
    if xs != [] {
      var rest := xs[1..];
      assert xs == [xs[0]] + rest;
      UniqueCons(xs[0], rest, key);
      WithoutIsSubsequence(rest, drop, key);
      NewKeyIn(xs[0], rest, key);
      NewKeyIn(xs[0], Without(rest, drop), key);
      UniqueCons(xs[0], Without(rest, drop), key);
    }
  }

  /** The first net that already holds the pin. */
  function HolderOf(nets: seq<Net>, pin: PinRef): Option<Net> {
    if nets == [] then None
    else if pin in nets[0].members then Some(nets[0])
    else HolderOf(nets[1..], pin)
  }

  function JoinIn(nets: seq<Net>, netId: Id, pin: PinRef): (r: seq<Net>)
    ensures |r| == |nets|
    ensures forall i :: 0 <= i < |nets| ==>
      r[i] == if nets[i].id == netId then nets[i].(members := nets[i].members + [pin]) else nets[i]
  {
    seq(|nets|, i requires 0 <= i < |nets| =>
      if nets[i].id == netId then nets[i].(members := nets[i].members + [pin]) else nets[i])
  }

  function Bad(): Result<Graph> { Err(InvariantViolation) }

  function ApplyRemove(g: Graph, id: Id): Result<Graph> {
    if !(exists c :: c in g.components && c.id == id) then Bad()
    else if exists n :: n in g.nets && exists m :: m in n.members && m.componentId == id then Bad()
    else if exists p :: p in g.placements && p.componentId == id && p.locked then Err(LockedObject)
    else if exists p :: p in g.pads && p.componentId == id && p.locked then Err(LockedObject)
    else if exists h :: h in g.holes && h.componentId == id && h.locked then Err(LockedObject)
    else Ok(g.(components := Without(g.components, (c: Component) => c.id == id),
               placements := Without(g.placements, (p: Placement) => p.componentId == id),
               pads := Without(g.pads, (p: Pad) => p.componentId == id),
               holes := Without(g.holes, (h: Hole) => h.componentId == id)))
  }

  function ApplyConnect(g: Graph, netId: Id, pin: PinRef): Result<Graph> {
    match HolderOf(g.nets, pin)
    case Some(n) => if n.id == netId then Err(CommandConflict) else Bad()
    case None =>
      if !(exists n :: n in g.nets && n.id == netId) then Bad()
      else Ok(g.(nets := JoinIn(g.nets, netId, pin)))
  }

  function ApplyPlace(g: Graph, p: Placement): Result<Graph> {
    if !(exists c :: c in g.components && c.id == p.componentId) then Bad()
    else if exists q :: q in g.placements && q.componentId == p.componentId && q.locked then Err(LockedObject)
    else if !WfPlacement(p) then Bad()
    else Ok(g.(placements := Without(g.placements, (q: Placement) => q.componentId == p.componentId) + [p]))
  }

  function ApplyPad(g: Graph, raw: Pad): Result<Graph> {
    var p := InitPad(raw);
    if !WfPad(p) || p.landGroup.Some? || (exists q :: q in g.pads && q.id == p.id) then Bad()
    else Ok(g.(pads := g.pads + [p]))
  }

  function ApplyPadGroup(g: Graph, groupId: Id, raw: seq<Pad>): Result<Graph> {
    var group := MapSeq(raw, InitPad);
    if |group| < 2 || (exists p :: p in group && !WfPad(p)) || (exists p :: p in group && p.landGroup != Some(groupId)) then Bad()
    else if !UniqueKeys(group, PadKey) || (exists p :: p in group && exists q :: q in g.pads && q.id == p.id) then Bad()
    else Ok(g.(pads := g.pads + group))
  }

  function ApplyHole(g: Graph, raw: Hole): Result<Graph> {
    var h := InitHole(raw);
    if !WfHole(h) || (exists k :: k in g.holes && k.id == h.id) then Bad()
    else Ok(g.(holes := g.holes + [h]))
  }

  function ApplyZone(g: Graph, z: Zone): Result<Graph> {
    if !WfZone(z) || (exists y :: y in g.zones && y.id == z.id) then Bad()
    else Ok(g.(zones := g.zones + [z]))
  }

  function Apply(g: Graph, op: Op): Result<Graph> {
    match op
    case AddComponent(c) =>
      if !WfComponent(c) || (exists d :: d in g.components && (d.id == c.id || d.reference == c.reference)) then Bad()
      else Ok(g.(components := g.components + [c]))
    case RemoveComponent(id) => ApplyRemove(g, id)
    case CreateNet(id, name) =>
      if exists n :: n in g.nets && (n.id == id || n.name == name) then Bad()
      else Ok(g.(nets := g.nets + [Net(id, name, [])]))
    case ConnectNet(id, pin) => ApplyConnect(g, id, pin)
    case PlaceFootprint(p) => ApplyPlace(g, p)
    case AddPad(p) => ApplyPad(g, p)
    case AddPadGroup(id, pads) => ApplyPadGroup(g, id, pads)
    case AddHole(h) => ApplyHole(g, h)
    case AddTrack(t) =>
      if !WfTrack(t) || (exists u :: u in g.tracks && u.id == t.id) then Bad()
      else Ok(g.(tracks := g.tracks + [t]))
    case AddVia(v) =>
      if !WfVia(v) || (exists u :: u in g.vias && u.id == v.id) then Bad()
      else Ok(g.(vias := g.vias + [v]))
    case AddZone(id, net, layer, outline, clearance, thickness, priority, locked) =>
      ApplyZone(g, Zone(id, net, layer, outline, clearance, thickness, priority, locked, Unfilled))
    case AddWire(w) =>
      if !WfWire(w) || (exists u :: u in g.wires && u.id == w.id) then Bad()
      else Ok(g.(wires := g.wires + [w]))
    case AddJunction(j) =>
      if exists k :: k in g.junctions && k.id == j.id then Bad()
      else Ok(g.(junctions := g.junctions + [j]))
    case SetOutline(vertices) => Ok(g.(outline := vertices))
  }

  lemma {:induction false} HolderOfSpec(nets: seq<Net>, pin: PinRef)
    ensures HolderOf(nets, pin).None? <==> forall n :: n in nets ==> pin !in n.members
    ensures HolderOf(nets, pin).Some? ==> HolderOf(nets, pin).value in nets && pin in HolderOf(nets, pin).value.members
  {
    if nets != [] {
      HolderOfSpec(nets[1..], pin);
      assert nets == [nets[0]] + nets[1..];
    }
  }

  lemma RemoveKeepsWf(g: Graph, id: Id)
    requires WfGraph(g) && ApplyRemove(g, id).Ok?
    ensures WfGraph(ApplyRemove(g, id).value)
  {
  }

  lemma PlaceKeepsWf(g: Graph, p: Placement)
    requires WfGraph(g) && ApplyPlace(g, p).Ok?
    ensures WfGraph(ApplyPlace(g, p).value)
  {
  }

  lemma PadKeepsWf(g: Graph, p: Pad)
    requires WfGraph(g) && ApplyPad(g, p).Ok?
    ensures WfGraph(ApplyPad(g, p).value)
  {
  }

  lemma PadGroupKeepsWf(g: Graph, id: Id, pads: seq<Pad>)
    requires WfGraph(g) && ApplyPadGroup(g, id, pads).Ok?
    ensures WfGraph(ApplyPadGroup(g, id, pads).value)
  {
  }

  lemma HoleKeepsWf(g: Graph, h: Hole)
    requires WfGraph(g) && ApplyHole(g, h).Ok?
    ensures WfGraph(ApplyHole(g, h).value)
  {
  }

  lemma ZoneKeepsWf(g: Graph, z: Zone)
    requires WfGraph(g) && ApplyZone(g, z).Ok?
    ensures WfGraph(ApplyZone(g, z).value)
  {
  }

  lemma CircuitAppendKeepsWf(g: Graph, op: Op)
    requires WfGraph(g) && Apply(g, op).Ok? && (op.AddComponent? || op.CreateNet? || op.AddWire?)
    ensures WfGraph(Apply(g, op).value)
  {
    match op
    case AddComponent(c) =>
    case CreateNet(id, name) =>
    case AddWire(w) =>
  }

  lemma BoardAppendKeepsWf(g: Graph, op: Op)
    requires WfGraph(g) && Apply(g, op).Ok? && (op.AddTrack? || op.AddVia? || op.AddJunction? || op.SetOutline?)
    ensures WfGraph(Apply(g, op).value)
  {
    match op
    case AddTrack(t) =>
    case AddVia(v) =>
    case AddJunction(j) =>
    case SetOutline(vertices) =>
  }

  /** Applying a command keeps every constructor condition. */
  lemma ApplyKeepsWf(g: Graph, op: Op)
    requires WfGraph(g) && Apply(g, op).Ok?
    ensures WfGraph(Apply(g, op).value)
  {
    match op
    case RemoveComponent(id) => RemoveKeepsWf(g, id);
    case ConnectNet(id, pin) => ConnectKeepsWf(g, id, pin);
    case PlaceFootprint(p) => PlaceKeepsWf(g, p);
    case AddPad(p) => PadKeepsWf(g, p);
    case AddPadGroup(id, pads) => PadGroupKeepsWf(g, id, pads);
    case AddHole(h) => HoleKeepsWf(g, h);
    case AddZone(id, net, layer, outline, clearance, thickness, priority, locked) =>
      ZoneKeepsWf(g, Zone(id, net, layer, outline, clearance, thickness, priority, locked, Unfilled));
    case _ =>
      if op.AddComponent? || op.CreateNet? || op.AddWire? { CircuitAppendKeepsWf(g, op); } else { BoardAppendKeepsWf(g, op); }
  }

  lemma ConnectKeepsWf(g: Graph, netId: Id, pin: PinRef)
    requires WfGraph(g) && ApplyConnect(g, netId, pin).Ok?
    ensures WfGraph(ApplyConnect(g, netId, pin).value)
  {
    HolderOfSpec(g.nets, pin);
    var r := JoinIn(g.nets, netId, pin);
    forall n | n in r ensures WfNet(n) {
      var i :| 0 <= i < |r| && r[i] == n;
      assert g.nets[i] in g.nets && WfNet(g.nets[i]);
    }
  }

  /** One staged command: apply, normalise, validate. */
  ghost function Step(g: Graph, op: Op): Result<Graph> {
    match Apply(g, op)
    case Err(f) => Err(f)
    case Ok(r) => if Valid(Normalize(r)) then Ok(Normalize(r)) else Err(InvariantViolation)
  }

  /** A step that is valid and changes the graph; staging and replay both stop at any other. */
  ghost function Effect(g: Graph, op: Op): Option<Graph> {
    match Step(g, op)
    case Err(_) => None
    case Ok(next) => if next == g then None else Some(next)
  }

  ghost predicate Settled(g: Graph) { WfGraph(g) && Valid(g) && Normalize(g) == g }

  /** A staged command leads from one valid canonical graph to another. */
  lemma StepSettles(g: Graph, op: Op)
    requires WfGraph(g) && Step(g, op).Ok?
    ensures Settled(Step(g, op).value)
  {
    ApplyKeepsWf(g, op);
    var r := Apply(g, op).value;
    NormalizeKeepsWf(r);
    NormalizeKeepsValidity(r);
    ValidNormalizeTwice(r);
  }

  method RunStep(g: Graph, op: Op) returns (r: Result<Graph>)
    requires WfGraph(g)
    ensures r == Step(g, op)
  {
    r := Apply(g, op);
    if r.Ok? {
      ApplyKeepsWf(g, op);
      NormalizeKeepsWf(r.value);
      var next := Normalize(r.value);
      var valid := Validation.ValidateGraph(next);
      r := if valid then Ok(next) else Err(InvariantViolation);
    }
  }
}
