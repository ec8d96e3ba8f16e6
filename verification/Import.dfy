/**
 Graph-to-commands compiler (backend/canonical_import/mapper.py:1006-1211) and the replay that
 checks it (backend/canonical_import/model.py:937-960).  Compiling a graph and replaying the
 commands from the empty graph gives the graph back exactly when the graph is valid, canonical,
 on the default layers and free of filled zones; no step on the way fails or is without effect.
 */
module Import {
  import opened Lex
  import opened Sorting
  import opened Geometry
  import opened Ring
  import opened Polygon
  import opened Wiring
  import opened Graph
  import opened Mirror
  import opened Normalization
  import opened Commands
  import opened Parts
  import opened Fold

  // ---------- The compiler ----------

  function OutlineOps(outline: Ring): seq<Op> {
    if outline == [] then [] else [SetOutline(outline)]
  }

  function CreateOp(n: Net): Op { CreateNet(n.id, n.name) }

  function MemberOps(n: Net): seq<Op> {
    MapSeq(n.members, (m: PinRef) => ConnectNet(n.id, m))
  }

  function ConnectOps(nets: seq<Net>): seq<Op> {
    if nets == [] then [] else MemberOps(nets[0]) + ConnectOps(nets[1..])
  }

  function ComponentOp(c: Component): Op { AddComponent(c) }
  function PlacementOp(p: Placement): Op { PlaceFootprint(p) }
  function HoleOp(h: Hole): Op { AddHole(h) }
  function TrackOp(t: Track): Op { AddTrack(t) }
  function ViaOp(v: Via): Op { AddVia(v) }
  function ZoneOp(z: Zone): Op {
    AddZone(z.id, z.netId, z.layer, z.outline, z.clearance, z.minThickness, z.priority, z.locked)
  }
  function WireOp(w: Wire): Op { AddWire(w) }
  function JunctionOp(j: Junction): Op { AddJunction(j) }

  function GroupOf(pads: seq<Pad>, k: Id): seq<Pad> {
    SortBy(Without(pads, (p: Pad) => p.landGroup != Some(k)), PadKey)
  }

  /** A group's command carries exactly the pads of the group, in the order of their IDs. */
  lemma GroupExactly(pads: seq<Pad>, k: Id)
    requires UniqueKeys(pads, PadKey)
    ensures forall p :: p in GroupOf(pads, k) <==> p in pads && p.landGroup == Some(k)
    ensures forall i, j :: 0 <= i < j < |GroupOf(pads, k)| ==> Lt(Codes(GroupOf(pads, k)[i].id), Codes(GroupOf(pads, k)[j].id))
  {
    var group := Without(pads, (p: Pad) => p.landGroup != Some(k));
    WithoutIsSubsequence(pads, (p: Pad) => p.landGroup != Some(k), PadKey);
    SortElements(group, PadKey);
    SortAscending(group, PadKey);
  }

  /** Shared-land groups that occur among some pads. */
  function GroupsIn(pads: seq<Pad>): set<Id> {
    set p | p in pads && p.landGroup.Some? :: p.landGroup.value
  }

  /** What is emitted at pad `i`: the pad, its whole group at the group's first pad, or nothing. */
  function PadOpsAt(pads: seq<Pad>, i: nat): seq<Op>
    requires i < |pads|
  {
    match pads[i].landGroup
    case None => [AddPad(pads[i])]
    case Some(k) => if k in GroupsIn(pads[..i]) then [] else [AddPadGroup(k, GroupOf(pads, k))]
  }

  function PadOps(pads: seq<Pad>, i: nat): seq<Op>
    requires i <= |pads|
    decreases |pads| - i
  {
    if i == |pads| then [] else PadOpsAt(pads, i) + PadOps(pads, i + 1)
  }

  function CircuitOps(g: Graph): seq<Op> {
    OutlineOps(g.outline) + MapSeq(g.components, ComponentOp) + MapSeq(g.nets, CreateOp) + ConnectOps(g.nets)
    + MapSeq(g.placements, PlacementOp)
  }

  function CopperOps(acc: seq<Op>, g: Graph): seq<Op> {
    acc + PadOps(g.pads, 0) + MapSeq(g.holes, HoleOp) + MapSeq(g.tracks, TrackOp) + MapSeq(g.vias, ViaOp)
    + MapSeq(g.zones, ZoneOp)
  }

  function SheetOps(acc: seq<Op>, g: Graph): seq<Op> {
    acc + MapSeq(g.wires, WireOp) + MapSeq(g.junctions, JunctionOp)
  }

  function Payloads(g: Graph): seq<Op> {
    SheetOps(CopperOps(CircuitOps(g), g), g)
  }

  /** One `for item in items: payloads.append(...)` loop. */
  method AppendEach<T>(acc: seq<Op>, items: seq<T>, op: T -> Op) returns (r: seq<Op>)
    ensures r == acc + MapSeq(items, op)
  {
    r := acc;
    for k := 0 to |items|
      invariant r == acc + MapSeq(items, op)[..k]
    {
      assert MapSeq(items, op)[..k + 1] == MapSeq(items, op)[..k] + [op(items[k])];
      r := r + [op(items[k])];
    }
    assert MapSeq(items, op)[..|items|] == MapSeq(items, op);
  }

  method AppendConnections(acc: seq<Op>, nets: seq<Net>) returns (r: seq<Op>)
    ensures r == acc + ConnectOps(nets)
  {
    r := acc;
    for k := 0 to |nets|
      invariant r + ConnectOps(nets[k..]) == acc + ConnectOps(nets)
    {
      assert nets[k..][0] == nets[k] && nets[k..][1..] == nets[k + 1..];
      ghost var before := r;
      r := AppendEach(r, nets[k].members, (m: PinRef) => ConnectNet(nets[k].id, m));
      assert MemberOps(nets[k]) == MapSeq(nets[k].members, (m: PinRef) => ConnectNet(nets[k].id, m));
      assert r + ConnectOps(nets[k + 1..]) == before + (MemberOps(nets[k]) + ConnectOps(nets[k + 1..]));
    }
    assert nets[|nets|..] == [];
    assert r + [] == r;
  }

  lemma PadOpsStep(acc: seq<Op>, pads: seq<Pad>, k: nat)
    requires k < |pads|
    ensures acc + PadOps(pads, k) == acc + PadOpsAt(pads, k) + PadOps(pads, k + 1)
    ensures GroupsIn(pads[..k + 1]) ==
      GroupsIn(pads[..k]) + if pads[k].landGroup.Some? then {pads[k].landGroup.value} else {}
  {
    assert pads[..k + 1] == pads[..k] + [pads[k]];
  }

  method AppendPads(acc: seq<Op>, pads: seq<Pad>) returns (r: seq<Op>)
    ensures r == acc + PadOps(pads, 0)
  {
    r := acc;
    var emitted: set<Id> := {};
    for k := 0 to |pads|
      invariant emitted == GroupsIn(pads[..k])
      invariant r + PadOps(pads, k) == acc + PadOps(pads, 0)
    {
      PadOpsStep(r, pads, k);
      match pads[k].landGroup {
        case None =>
          r := r + [AddPad(pads[k])];
        case Some(group) =>
          if group !in emitted {
            r := r + [AddPadGroup(group, GroupOf(pads, group))];
            emitted := emitted + {group};
          } else {
            assert r + [] == r;
          }
      }
    }
    assert r + [] == r;
  }

  /** The compiler as written: one list, appended to phase by phase. */
  method CompileGraph(g: Graph) returns (payloads: seq<Op>)
    ensures payloads == Payloads(g)
  {
    payloads := CompileCircuit(g);
    payloads := CompileCopper(payloads, g);
    payloads := AppendEach(payloads, g.wires, WireOp);
    payloads := AppendEach(payloads, g.junctions, JunctionOp);
  }

  method CompileCircuit(g: Graph) returns (payloads: seq<Op>)
    ensures payloads == CircuitOps(g)
  {
    payloads := [];
    if g.outline != [] {
      payloads := [SetOutline(g.outline)];
    }
    payloads := AppendEach(payloads, g.components, ComponentOp);
    payloads := AppendEach(payloads, g.nets, CreateOp);
    payloads := AppendConnections(payloads, g.nets);
    payloads := AppendEach(payloads, g.placements, PlacementOp);
  }

  method CompileCopper(acc: seq<Op>, g: Graph) returns (payloads: seq<Op>)
    ensures payloads == CopperOps(acc, g)
  {
    payloads := AppendPads(acc, g.pads);
    payloads := AppendEach(payloads, g.holes, HoleOp);
    payloads := AppendEach(payloads, g.tracks, TrackOp);
    payloads := AppendEach(payloads, g.vias, ViaOp);
    payloads := AppendEach(payloads, g.zones, ZoneOp);
  }

  // ---------- Replay ----------

  const DEFAULT_LAYERS: seq<string> := ["F.Cu", "B.Cu"]

  function EmptyGraph(project: Id): Graph {
    Normalize(Graph(1, project, DEFAULT_LAYERS, [], [], [], [], [], [], [], [], [], [], []))
  }

  ghost function Replay(g: Graph, ops: seq<Op>): Option<Graph> {
    Run(Effect, g, ops)
  }

  method ReplayCommands(g: Graph, ops: seq<Op>) returns (r: Option<Graph>)
    requires WfGraph(g)
    ensures r == Replay(g, ops)
  {
    var replay := g;
    for k := 0 to |ops|
      invariant WfGraph(replay)
      invariant Run(Effect, replay, ops[k..]) == Replay(g, ops)
    {
      assert ops[k..][0] == ops[k] && ops[k..][1..] == ops[k + 1..];
      var next := RunStep(replay, ops[k]);
      assert Effect(replay, ops[k]) == if next.Err? || next.value == replay then None else Some(next.value);
      if next.Err? || next.value == replay {
        return None;
      }
      StepSettles(replay, ops[k]);
      replay := next.value;
    }
    assert ops[|ops|..] == [];
    return Some(replay);
  }
}
