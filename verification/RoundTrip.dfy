/**
 The compile/replay round trip: every phase of the compiled command list leads from one
 grounded part of the graph to the next, and the last part is the graph itself.
 */
module RoundTrip {
  import opened Lex
  import opened Sorting
  import opened Geometry
  import opened Ring
  import opened Polygon
  import opened Wiring
  import opened Graph
  import opened Mirror
  import opened Normalization
  import opened Commands
  import opened Parts
  import opened Fold
  import opened Import

  /** What a graph must be for its commands to rebuild it. */
  ghost predicate Importable(g: Graph) {
    && WfGraph(g) && Valid(g) && Normalize(g) == g
    && g.layers == EmptyGraph(g.projectId).layers
    && forall z :: z in g.zones ==> z.fill.Unfilled?
  }

  // ---------- The graphs between the phases ----------

  function Bare(n: Net): Net { Net(n.id, n.name, []) }

  function P0(g: Graph): Graph { Graph(g.schemaVersion, g.projectId, g.layers, [], [], [], [], [], [], [], [], [], [], []) }
  function P1(g: Graph): Graph { P0(g).(outline := g.outline) }
  function P2(g: Graph): Graph { P1(g).(components := g.components) }
  function P3(g: Graph): Graph { P2(g).(nets := MapSeq(g.nets, Bare)) }
  function P4(g: Graph): Graph { P2(g).(nets := g.nets) }
  function P5(g: Graph): Graph { P4(g).(placements := g.placements) }
  function P6(g: Graph): Graph { P5(g).(pads := g.pads) }
  function P7(g: Graph): Graph { P6(g).(holes := g.holes) }
  function P8(g: Graph): Graph { P7(g).(tracks := g.tracks) }
  function P9(g: Graph): Graph { P8(g).(vias := g.vias) }
  function P10(g: Graph): Graph { P9(g).(zones := g.zones) }
  function P11(g: Graph): Graph { P10(g).(wires := g.wires) }

  lemma Grow<T(!new)>(s: seq<T>, k: nat, key: T -> Key)
    requires k < |s| && UniqueKeys(s, key)
    ensures s[..k] + [s[k]] == s[..k + 1] && s[..k] <= s && s[..k + 1] <= s && s[k] in s
    ensures forall x :: x in s[..k] ==> key(x) != key(s[k])
  {
  }

  /** Every grounded part of the graph is valid and canonical. */
  ghost predicate PartsSettle(g: Graph) { forall h :: Partial(h, g) ==> Valid(h) && Normalize(h) == h }

  /** What the phases need to know of the graph they rebuild. */
  ghost predicate Buildable(g: Graph) {
    && PartsSettle(g) && WfGraph(g) && IdsUnique(g) && PadsBegun(g.pads, g.pads)
    && forall z :: z in g.zones ==> z.fill.Unfilled?
  }

  lemma ImportableBuilds(g: Graph)
    requires Importable(g)
    ensures Buildable(g) && Tidy(g)
  {
    NormalIsTidy(g);
    forall h | Partial(h, g) ensures Valid(h) && Normalize(h) == h {
      PartialValid(h, g);
      PartialNormal(h, g);
    }
  }

  /** A step to a grounded part of the graph is valid; it is effective if it changes anything. */
  lemma StepToPart(g: Graph, h: Graph, op: Op, h': Graph)
    requires PartsSettle(g) && Partial(h', g) && Apply(h, op) == Ok(h') && h' != h
    ensures Effect(h, op) == Some(h')
  {
  }

  /** One more item: the command applies, and changes the graph. */
  ghost predicate Emits<T>(put: seq<T> -> Graph, op: T -> Op, xs: seq<T>, k: nat) {
    k < |xs| ==> Apply(put(xs[..k]), op(xs[k])) == Ok(put(xs[..k + 1])) && put(xs[..k + 1]) != put(xs[..k])
  }

  lemma EmitStep<T>(g: Graph, xs: seq<T>, put: seq<T> -> Graph, op: T -> Op, k: nat, next: nat)
    requires PartsSettle(g) && next == k + 1 <= |xs| && Partial(put(xs[..next]), g) && Emits(put, op, xs, k)
    ensures Effect(put(xs[..k]), op(xs[k])) == Some(put(xs[..next]))
  {
    StepToPart(g, put(xs[..k]), op(xs[k]), put(xs[..next]));
  }

  /** A phase that emits one command per item replays to the graph with all the items placed. */
  lemma AppendPhase<T(!new)>(g: Graph, xs: seq<T>, put: seq<T> -> Graph, op: T -> Op)
    requires PartsSettle(g) && (forall k: nat :: k <= |xs| ==> Partial(put(xs[..k]), g)) && (forall k: nat :: Emits(put, op, xs, k))
    ensures Replay(put([]), MapSeq(xs, op)) == Some(put(xs))
  {
    forall k: nat, next: nat | next == k + 1 <= |xs| ensures Effect(put(xs[..k]), op(xs[k])) == Some(put(xs[..next])) {
      EmitStep(g, xs, put, op, k, next);
    }
    assert xs[..0] == [] && MapSeq(xs, op)[0..] == MapSeq(xs, op);
    RunAppend(Effect, xs, put, op, 0);
  }

  // ---------- Outline and components ----------

  lemma OutlinePart(g: Graph)
    ensures Partial(P1(g), g)
  {
  }

  lemma OutlineApplies(g: Graph)
    requires g.outline != []
    ensures Apply(P0(g), SetOutline(g.outline)) == Ok(P1(g)) && P1(g) != P0(g)
  {
    assert P1(g).outline != P0(g).outline;
  }

  lemma OutlineStep(g: Graph)
    requires PartsSettle(g) && g.outline != []
    ensures Effect(P0(g), SetOutline(g.outline)) == Some(P1(g))
  {
    OutlinePart(g);
    OutlineApplies(g);
    StepToPart(g, P0(g), SetOutline(g.outline), P1(g));
  }

  lemma OutlinePhase(g: Graph)
    requires PartsSettle(g)
    ensures Replay(P0(g), OutlineOps(g.outline)) == Some(P1(g))
  {
    if g.outline == [] {
      assert P0(g) == P1(g);
    } else {
      var op := SetOutline(g.outline);
      OutlineStep(g);
      RunOne(Effect, P0(g), op, P1(g));
    }
  }

  function PutComponents(g: Graph, ys: seq<Component>): Graph { P1(g).(components := ys) }

  lemma ComponentPart(g: Graph, k: nat)
    requires k <= |g.components|
    ensures Partial(PutComponents(g, g.components[..k]), g)
  {
  }

  lemma ComponentApplies(g: Graph, k: nat)
    requires k < |g.components| && UniqueKeys(g.components, ComponentKey) && UniqueKeys(g.components, ReferenceKey)
    requires WfComponent(g.components[k])
    ensures Apply(PutComponents(g, g.components[..k]), ComponentOp(g.components[k])) == Ok(PutComponents(g, g.components[..k + 1]))
  {
    Grow(g.components, k, ComponentKey);
    Grow(g.components, k, ReferenceKey);
  }

  lemma ComponentsPhase(g: Graph)
    requires Buildable(g)
    ensures Replay(P1(g), MapSeq(g.components, ComponentOp)) == Some(P2(g))
  {
    var put := (ys: seq<Component>) => PutComponents(g, ys);
    forall k: nat | k <= |g.components| ensures Partial(put(g.components[..k]), g) { ComponentPart(g, k); }
    forall k: nat ensures Emits(put, ComponentOp, g.components, k) {
      if k < |g.components| {
        assert g.components[k] in g.components;
        ComponentApplies(g, k);
        assert |put(g.components[..k]).components| != |put(g.components[..k + 1]).components|;
      }
    }
    AppendPhase(g, g.components, put, ComponentOp);
  }

  // ---------- Nets ----------

  lemma CreatePart(g: Graph, k: nat)
    requires k <= |g.nets|
    ensures Partial(P2(g).(nets := MapSeq(g.nets, Bare)[..k]), g)
  {
    var bare := MapSeq(g.nets, Bare)[..k];
    assert forall i :: 0 <= i < k ==> bare[i] == Bare(g.nets[i]);
  }

  lemma CreateApplies(g: Graph, k: nat)
    requires UniqueKeys(g.nets, NetKey) && UniqueKeys(g.nets, NetNameKey) && k < |g.nets|
    ensures var bare := MapSeq(g.nets, Bare);
            Apply(P2(g).(nets := bare[..k]), CreateOp(g.nets[k])) == Ok(P2(g).(nets := bare[..k + 1]))
  {
    var bare := MapSeq(g.nets, Bare);
    forall n | n in bare[..k] ensures n.id != g.nets[k].id && n.name != g.nets[k].name {
      var i :| 0 <= i < k && bare[i] == n;
      assert NetKey(g.nets[i]) != NetKey(g.nets[k]) && NetNameKey(g.nets[i]) != NetNameKey(g.nets[k]);
    }
    assert bare[..k] + [bare[k]] == bare[..k + 1];
  }

  lemma CreateStep(g: Graph, k: nat)
    requires PartsSettle(g) && UniqueKeys(g.nets, NetKey) && UniqueKeys(g.nets, NetNameKey) && k < |g.nets|
    ensures Effect(P2(g).(nets := MapSeq(g.nets, Bare)[..k]), CreateOp(g.nets[k]))
         == Some(P2(g).(nets := MapSeq(g.nets, Bare)[..k + 1]))
  {
    CreatePart(g, k + 1);
    CreateApplies(g, k);
    StepToPart(g, P2(g).(nets := MapSeq(g.nets, Bare)[..k]), CreateOp(g.nets[k]),
               P2(g).(nets := MapSeq(g.nets, Bare)[..k + 1]));
  }

  lemma CreatePhase(g: Graph)
    requires Buildable(g)
    ensures Replay(P2(g), MapSeq(g.nets, CreateOp)) == Some(P3(g))
  {
    var ops, bare := MapSeq(g.nets, CreateOp), MapSeq(g.nets, Bare);
    var state := (k: nat) requires k <= |g.nets| => P2(g).(nets := bare[..k]);
    forall k: nat | k < |ops| ensures Effect(state(k), ops[k]) == Some(state(k + 1)) { CreateStep(g, k); }
    RunChain(Effect, state, ops, 0);
    assert bare[..|ops|] == bare && ops[0..] == ops;
  }

  /** Nets before `k` complete, `i` members of net `k` joined, later nets bare. */
  function Joining(nets: seq<Net>, k: nat, i: nat): (r: seq<Net>)
    requires k < |nets| && i <= |nets[k].members|
    ensures |r| == |nets|
    ensures forall a :: 0 <= a < |nets| ==>
      r[a] == if a < k then nets[a] else if a == k then nets[k].(members := nets[k].members[..i]) else Bare(nets[a])
  {
    seq(|nets|, a requires 0 <= a < |nets| =>
      if a < k then nets[a] else if a == k then nets[k].(members := nets[k].members[..i]) else Bare(nets[a]))
  }

  lemma NoHolderYet(g: Graph, k: nat, i: nat)
    requires WfGraph(g) && PinsOnOneNet(g) && UniqueKeys(g.nets, NetKey) && k < |g.nets| && i < |g.nets[k].members|
    ensures HolderOf(Joining(g.nets, k, i), g.nets[k].members[i]).None?
  {
    var nets, pin := Joining(g.nets, k, i), g.nets[k].members[i];
    HolderOfSpec(nets, pin);
    assert g.nets[k] in g.nets && WfNet(g.nets[k]);
    assert Joined(g, g.nets[k].id, pin);
    forall n | n in nets ensures pin !in n.members {
      var a :| 0 <= a < |nets| && nets[a] == n;
      if a < k {
        assert NetKey(g.nets[a]) != NetKey(g.nets[k]) && g.nets[a] in g.nets;
        assert !Joined(g, g.nets[a].id, pin);
      }
    }
  }

  lemma JoinStep(g: Graph, k: nat, i: nat)
    requires UniqueKeys(g.nets, NetKey) && k < |g.nets| && i < |g.nets[k].members|
    ensures JoinIn(Joining(g.nets, k, i), g.nets[k].id, g.nets[k].members[i]) == Joining(g.nets, k, i + 1)
  {
    var before, after := Joining(g.nets, k, i), Joining(g.nets, k, i + 1);
    var joined := JoinIn(before, g.nets[k].id, g.nets[k].members[i]);
    forall a | 0 <= a < |g.nets| ensures joined[a] == after[a] {
      if a < k { assert NetKey(g.nets[a]) != NetKey(g.nets[k]); }
      if k < a { assert NetKey(g.nets[k]) != NetKey(g.nets[a]); }
      assert g.nets[k].members[..i] + [g.nets[k].members[i]] == g.nets[k].members[..i + 1];
    }
  }

  lemma ConnectPart(g: Graph, k: nat, i: nat)
    requires k < |g.nets| && i <= |g.nets[k].members|
    ensures Partial(P2(g).(nets := Joining(g.nets, k, i)), g)
  {
  }

  lemma ConnectApplies(g: Graph, k: nat, i: nat)
    requires k < |g.nets| && i < |g.nets[k].members|
    requires HolderOf(Joining(g.nets, k, i), g.nets[k].members[i]).None?
    requires JoinIn(Joining(g.nets, k, i), g.nets[k].id, g.nets[k].members[i]) == Joining(g.nets, k, i + 1)
    ensures Apply(P2(g).(nets := Joining(g.nets, k, i)), ConnectNet(g.nets[k].id, g.nets[k].members[i]))
         == Ok(P2(g).(nets := Joining(g.nets, k, i + 1)))
    ensures Joining(g.nets, k, i) != Joining(g.nets, k, i + 1)
  {
    var nets := Joining(g.nets, k, i);
    assert nets[k] in nets && nets[k].id == g.nets[k].id;
    assert |nets[k].members| != |Joining(g.nets, k, i + 1)[k].members|;
  }

  lemma ConnectStep(g: Graph, k: nat, i: nat)
    requires Buildable(g) && PinsOnOneNet(g) && k < |g.nets| && i < |g.nets[k].members|
    ensures Effect(P2(g).(nets := Joining(g.nets, k, i)), ConnectNet(g.nets[k].id, g.nets[k].members[i]))
         == Some(P2(g).(nets := Joining(g.nets, k, i + 1)))
  {
    NoHolderYet(g, k, i);
    JoinStep(g, k, i);
    ConnectPart(g, k, i + 1);
    ConnectApplies(g, k, i);
    StepToPart(g, P2(g).(nets := Joining(g.nets, k, i)), ConnectNet(g.nets[k].id, g.nets[k].members[i]),
               P2(g).(nets := Joining(g.nets, k, i + 1)));
  }

  lemma MemberPhase(g: Graph, k: nat)
    requires Buildable(g) && PinsOnOneNet(g) && k < |g.nets|
    ensures Replay(P2(g).(nets := Joining(g.nets, k, 0)), MemberOps(g.nets[k]))
         == Some(P2(g).(nets := Joining(g.nets, k, |g.nets[k].members|)))
  {
    var ops := MemberOps(g.nets[k]);
    var state := (i: nat) requires i <= |g.nets[k].members| => P2(g).(nets := Joining(g.nets, k, i));
    forall i: nat | i < |ops| ensures Effect(state(i), ops[i]) == Some(state(i + 1)) { ConnectStep(g, k, i); }
    RunChain(Effect, state, ops, 0);
    assert ops[0..] == ops;
  }

  lemma JoiningNext(nets: seq<Net>, k: nat)
    requires k < |nets|
    ensures var full := Joining(nets, k, |nets[k].members|);
            if k + 1 < |nets| then full == Joining(nets, k + 1, 0) else full == nets
  {
    assert nets[k].members[..|nets[k].members|] == nets[k].members;
    if k + 1 < |nets| {
      assert nets[k + 1].members[..0] == [];
    }
  }

  lemma {:induction false} ConnectPhase(g: Graph, k: nat)
    requires Buildable(g) && PinsOnOneNet(g) && k < |g.nets|
    ensures Replay(P2(g).(nets := Joining(g.nets, k, 0)), ConnectOps(g.nets[k..])) == Some(P4(g))
    decreases |g.nets| - k
  {
    var rest := ConnectOps(g.nets[k + 1..]);
    assert g.nets[k..][0] == g.nets[k] && g.nets[k..][1..] == g.nets[k + 1..];
    MemberPhase(g, k);
    JoiningNext(g.nets, k);
    RunJoin(Effect, P2(g).(nets := Joining(g.nets, k, 0)), MemberOps(g.nets[k]), rest);
    if k + 1 < |g.nets| {
      ConnectPhase(g, k + 1);
    } else {
      assert rest == [];
    }
  }

  lemma NetsPhase(g: Graph)
    requires Buildable(g) && PinsOnOneNet(g)
    ensures Replay(P3(g), ConnectOps(g.nets)) == Some(P4(g))
  {
    if g.nets == [] {
      assert P3(g) == P4(g);
    } else {
      assert g.nets[0].members[..0] == [];
      assert Joining(g.nets, 0, 0) == MapSeq(g.nets, Bare);
      assert g.nets[0..] == g.nets;
      ConnectPhase(g, 0);
    }
  }

  // ---------- Placements ----------

  function PutPlacements(g: Graph, ys: seq<Placement>): Graph { P4(g).(placements := ys) }

  lemma PlacementPart(g: Graph, k: nat)
    requires k <= |g.placements|
    ensures Partial(PutPlacements(g, g.placements[..k]), g)
  {
  }

  lemma PlacementApplies(g: Graph, k: nat)
    requires k < |g.placements| && UniqueKeys(g.placements, PlacementKey)
    requires WfPlacement(g.placements[k]) && HasComponent(g, g.placements[k].componentId)
    ensures Apply(PutPlacements(g, g.placements[..k]), PlacementOp(g.placements[k]))
         == Ok(PutPlacements(g, g.placements[..k + 1]))
  {
    var h, p := PutPlacements(g, g.placements[..k]), g.placements[k];
    Grow(g.placements, k, PlacementKey);
    WithoutNone(h.placements, (q: Placement) => q.componentId == p.componentId);
  }

  lemma {:induction false} WithoutNone<T(!new)>(xs: seq<T>, drop: T -> bool)
    requires forall x :: x in xs ==> !drop(x)
    ensures Without(xs, drop) == xs
  {
    if xs != [] {
      assert xs[0] in xs;
      assert xs == [xs[0]] + xs[1..];
      WithoutNone(xs[1..], drop);
    }
  }

  lemma PlacementsPhase(g: Graph)
    requires Buildable(g) && PlacementsOk(g)
    ensures Replay(P4(g), MapSeq(g.placements, PlacementOp)) == Some(P5(g))
  {
    var put := (ys: seq<Placement>) => PutPlacements(g, ys);
    forall k: nat | k <= |g.placements| ensures Partial(put(g.placements[..k]), g) { PlacementPart(g, k); }
    forall k: nat ensures Emits(put, PlacementOp, g.placements, k) {
      if k < |g.placements| {
        assert g.placements[k] in g.placements;
        PlacementApplies(g, k);
        assert |put(g.placements[..k]).placements| != |put(g.placements[..k + 1]).placements|;
      }
    }
    AppendPhase(g, g.placements, put, PlacementOp);
  }

  // ---------- Pads and shared-land groups ----------

  predicate IsEmitted(pads: seq<Pad>, i: nat, p: Pad)
    requires i <= |pads|
  {
    match p.landGroup
    case None => p in pads[..i]
    case Some(k) => k in GroupsIn(pads[..i])
  }

  /** The pads present after the first `i` have been looked at, in canonical order. */
  function Emitted(pads: seq<Pad>, i: nat): seq<Pad>
    requires i <= |pads|
  {
    Without(pads, (p: Pad) => !IsEmitted(pads, i, p))
  }

  lemma {:induction false} WithoutAscending<T(!new)>(xs: seq<T>, drop: T -> bool, key: T -> Key)
    requires Ascending(xs, key)
    ensures Ascending(Without(xs, drop), key)
  {
    if xs != [] {
      AscendingTail(xs, key);
      WithoutAscending(xs[1..], drop, key);
      var rest := Without(xs[1..], drop);
      forall j | 0 <= j < |rest| ensures Lt(key(xs[0]), key(rest[j])) {
        assert rest[j] in rest;
        var m :| 0 <= m < |xs[1..]| && xs[1..][m] == rest[j];
        assert Lt(key(xs[0]), key(xs[m + 1]));
      }
    }
  }

  lemma InGroups(pads: seq<Pad>, i: nat, k: Id)
    requires i <= |pads|
    ensures k in GroupsIn(pads[..i]) <==> exists a :: 0 <= a < i && pads[a].landGroup == Some(k)
  {
    if k in GroupsIn(pads[..i]) {
      var p :| p in pads[..i] && p.landGroup.Some? && p.landGroup.value == k;
      var a :| 0 <= a < i && pads[..i][a] == p;
    }
    if a :| 0 <= a < i && pads[a].landGroup == Some(k) {
      assert pads[..i][a] in pads[..i];
    }
  }

  lemma EmittedBegun(g: Graph, i: nat)
    requires i <= |g.pads| && Ascending(g.pads, PadKey)
    ensures PadsBegun(Emitted(g.pads, i), g.pads)
  {
    WithoutAscending(g.pads, (p: Pad) => !IsEmitted(g.pads, i, p), PadKey);
  }

  lemma EmittedPart(g: Graph, i: nat)
    requires i <= |g.pads| && Ascending(g.pads, PadKey)
    ensures Partial(P5(g).(pads := Emitted(g.pads, i)), g)
  {
    EmittedBegun(g, i);
  }

  /** The new pads at `i`. */
  function NewPads(pads: seq<Pad>, i: nat): seq<Pad>
    requires i < |pads|
  {
    match pads[i].landGroup
    case None => [pads[i]]
    case Some(k) => if k in GroupsIn(pads[..i]) then [] else GroupOf(pads, k)
  }

  lemma GroupElements(pads: seq<Pad>, k: Id)
    requires UniqueKeys(pads, PadKey) && Ascending(pads, PadKey)
    ensures forall p :: p in GroupOf(pads, k) <==> p in pads && p.landGroup == Some(k)
    ensures UniqueKeys(GroupOf(pads, k), PadKey)
  {
    var members := Without(pads, (p: Pad) => p.landGroup != Some(k));
    SortElements(members, PadKey);
    WithoutAscending(pads, (p: Pad) => p.landGroup != Some(k), PadKey);
    AscendingIsUnique(members, PadKey);
    SortUnique(members, PadKey, PadKey);
  }

  lemma PrefixMember(pads: seq<Pad>, i: nat, p: Pad)
    requires i < |pads|
    ensures p in pads[..i + 1] <==> p in pads[..i] || p == pads[i]
  {
    assert pads[..i + 1] == pads[..i] + [pads[i]];
  }

  /** Looking at pad `i` adds exactly the new pads. */
  lemma EmittedNext(pads: seq<Pad>, i: nat, p: Pad)
    requires i < |pads| && Ascending(pads, PadKey)
    ensures p in Emitted(pads, i + 1) <==> p in Emitted(pads, i) || p in NewPads(pads, i)
  {
    AscendingIsUnique(pads, PadKey);
    PrefixMember(pads, i, p);
    PadOpsStep([], pads, i);
    if pads[i].landGroup.Some? {
      GroupElements(pads, pads[i].landGroup.value);
    }
    assert pads[i] in pads;
  }

  lemma NewPadsAreNew(pads: seq<Pad>, i: nat)
    requires i < |pads| && Ascending(pads, PadKey)
    ensures UniqueKeys(NewPads(pads, i), PadKey)
    ensures forall p, q :: p in NewPads(pads, i) && q in Emitted(pads, i) ==> q.id != p.id
    ensures forall p :: p in NewPads(pads, i) ==> p in pads
  {
    AscendingIsUnique(pads, PadKey);
    if pads[i].landGroup.Some? {
      GroupElements(pads, pads[i].landGroup.value);
    }
    forall p, q | p in NewPads(pads, i) && q in Emitted(pads, i) ensures q.id != p.id {
      assert p in pads && q in pads;
      NotEarlier(pads, i);
      assert p != q;
      DistinctIds(pads, p, q);
    }
  }

  lemma NotEarlier(pads: seq<Pad>, i: nat)
    requires i < |pads| && UniqueKeys(pads, PadKey)
    ensures pads[i] !in pads[..i]
  {
    assert forall a :: 0 <= a < i ==> PadKey(pads[a]) != PadKey(pads[i]);
  }

  lemma DistinctIds(pads: seq<Pad>, p: Pad, q: Pad)
    requires UniqueKeys(pads, PadKey) && p in pads && q in pads && p != q
    ensures p.id != q.id
  {
    var i :| 0 <= i < |pads| && pads[i] == p;
    var j :| 0 <= j < |pads| && pads[j] == q;
    if i < j { assert PadKey(pads[i]) != PadKey(pads[j]); } else { assert PadKey(pads[j]) != PadKey(pads[i]); }
  }

  lemma UniqueJoin(a: seq<Pad>, b: seq<Pad>)
    requires UniqueKeys(a, PadKey) && UniqueKeys(b, PadKey)
    requires forall p, q :: p in b && q in a ==> q.id != p.id
    ensures UniqueKeys(a + b, PadKey)
  {
    var s := a + b;
    forall i, j | 0 <= i < j < |s| ensures PadKey(s[i]) != PadKey(s[j]) {
      if i < |a| <= j {
        assert s[i] in a && s[j] in b;
        if PadKey(s[i]) == PadKey(s[j]) { CodesInjective(s[i].id, s[j].id); }
      }
    }
  }

  /** Unsorted pads with the right elements settle into the canonical graph. */
  lemma PadsSettle(h: Graph, raw: seq<Pad>)
    requires Tidy(h) && UniqueKeys(raw, PadKey) && SameElements(raw, h.pads)
    ensures Normalize(h.(pads := raw)) == h
  {
    TidyIsNormal(h);
    assert MapSeq(raw, NormPad) == raw by {
      assert forall a :: 0 <= a < |raw| ==> raw[a] in raw;
    }
    SortAscending(raw, PadKey);
    SortElements(raw, PadKey);
    AscendingDetermined(SortBy(raw, PadKey), h.pads, PadKey);
  }

  lemma PadApplies(h: Graph, p: Pad)
    requires WfPad(p) && p.landGroup.None? && forall q :: q in h.pads ==> q.id != p.id
    ensures Apply(h, AddPad(p)) == Ok(h.(pads := h.pads + [p]))
  {
  }

  lemma GroupApplies(h: Graph, k: Id, group: seq<Pad>)
    requires |group| >= 2 && UniqueKeys(group, PadKey)
    requires forall p :: p in group ==> WfPad(p) && p.landGroup == Some(k)
    requires forall p, q :: p in group && q in h.pads ==> q.id != p.id
    ensures Apply(h, AddPadGroup(k, group)) == Ok(h.(pads := h.pads + group))
  {
    assert MapSeq(group, InitPad) == group by {
      forall i | 0 <= i < |group| ensures InitPad(group[i]) == group[i] { assert group[i] in group; }
    }
  }

  lemma GroupHasTwo(pads: seq<Pad>, k: Id, i: nat)
    requires i < |pads| && pads[i].landGroup == Some(k) && Ascending(pads, PadKey) && HasLandMate(pads, pads[i])
    ensures |GroupOf(pads, k)| >= 2
  {
    AscendingIsUnique(pads, PadKey);
    GroupElements(pads, k);
    var p := pads[i];
    var q :| q in pads && q.landGroup == p.landGroup && q.id != p.id;
    assert p in GroupOf(pads, k) && q in GroupOf(pads, k);
  }

  lemma PadApplyAt(g: Graph, i: nat)
    requires WfGraph(g) && i < |g.pads| && Mated(g.pads, g.pads[i]) && Ascending(g.pads, PadKey) && NewPads(g.pads, i) != []
    ensures var h := P5(g).(pads := Emitted(g.pads, i));
            |PadOpsAt(g.pads, i)| == 1
            && Apply(h, PadOpsAt(g.pads, i)[0]) == Ok(h.(pads := h.pads + NewPads(g.pads, i)))
  {
    var h := P5(g).(pads := Emitted(g.pads, i));
    var p := g.pads[i];
    NewPadsAreNew(g.pads, i);
    AscendingIsUnique(g.pads, PadKey);
    assert p in g.pads;
    match p.landGroup {
      case None =>
        assert p in NewPads(g.pads, i);
        PadApplies(h, p);
      case Some(k) =>
        GroupElements(g.pads, k);
        assert HasLandMate(g.pads, p);
        GroupHasTwo(g.pads, k, i);
        GroupApplies(h, k, GroupOf(g.pads, k));
    }
  }

  lemma StepToSorted(g: Graph, h: Graph, op: Op, r: Graph, h': Graph)
    requires PartsSettle(g) && Apply(h, op) == Ok(r) && Normalize(r) == h' && Partial(h', g) && h' != h
    ensures Effect(h, op) == Some(h')
  {
  }

  lemma PadsNext(g: Graph, i: nat)
    requires i < |g.pads| && Ascending(g.pads, PadKey)
    ensures SameElements(Emitted(g.pads, i) + NewPads(g.pads, i), Emitted(g.pads, i + 1))
  {
    forall p ensures p in Emitted(g.pads, i) + NewPads(g.pads, i) <==> p in Emitted(g.pads, i + 1) { EmittedNext(g.pads, i, p); }
  }

  lemma PadsGrow(g: Graph, i: nat)
    requires i < |g.pads| && Ascending(g.pads, PadKey)
    ensures UniqueKeys(Emitted(g.pads, i) + NewPads(g.pads, i), PadKey)
    ensures SameElements(Emitted(g.pads, i) + NewPads(g.pads, i), Emitted(g.pads, i + 1))
    ensures NewPads(g.pads, i) != [] ==> Emitted(g.pads, i) != Emitted(g.pads, i + 1)
    ensures NewPads(g.pads, i) == [] ==> Emitted(g.pads, i) == Emitted(g.pads, i + 1)
  {
    var now, next, added := Emitted(g.pads, i), Emitted(g.pads, i + 1), NewPads(g.pads, i);
    PadsNext(g, i);
    EmittedBegun(g, i);
    NewPadsAreNew(g.pads, i);
    AscendingIsUnique(now, PadKey);
    UniqueJoin(now, added);
    if added == [] {
      assert now + added == now;
      EmittedBegun(g, i + 1);
      AscendingDetermined(now, next, PadKey);
    } else {
      assert added[0] in now + added;
      assert added[0] in next && added[0] !in now;
    }
  }

  function PadState(g: Graph, i: nat): Graph
    requires i <= |g.pads|
  {
    P5(g).(pads := Emitted(g.pads, i))
  }

  lemma PadEffect(g: Graph, i: nat)
    requires Buildable(g) && Tidy(g) && i < |g.pads| && Mated(g.pads, g.pads[i]) && NewPads(g.pads, i) != []
    ensures |PadOpsAt(g.pads, i)| == 1
    ensures Effect(PadState(g, i), PadOpsAt(g.pads, i)[0]) == Some(PadState(g, i + 1))
  {
    var h, h' := PadState(g, i), PadState(g, i + 1);
    var raw := h.pads + NewPads(g.pads, i);
    PadsGrow(g, i);
    EmittedPart(g, i + 1);
    PadApplyAt(g, i);
    PartialNormal(h', g);
    PadsSettle(h', raw);
    assert h'.(pads := raw) == h.(pads := raw);
    StepToSorted(g, h, PadOpsAt(g.pads, i)[0], h.(pads := raw), h');
  }

  lemma PadStep(g: Graph, i: nat)
    requires Buildable(g) && Tidy(g) && i < |g.pads| && Mated(g.pads, g.pads[i]) && Ascending(g.pads, PadKey)
    ensures Replay(PadState(g, i), PadOpsAt(g.pads, i)) == Some(PadState(g, i + 1))
  {
    var h, h' := PadState(g, i), PadState(g, i + 1);
    if NewPads(g.pads, i) == [] {
      assert h == h' by { PadsGrow(g, i); }
      NothingNew(g.pads, i);
    } else {
      PadEffect(g, i);
      var op := PadOpsAt(g.pads, i)[0];
      RunOne(Effect, h, op, h');
      assert PadOpsAt(g.pads, i) == [op];
    }
  }

  lemma NothingNew(pads: seq<Pad>, i: nat)
    requires i < |pads| && Ascending(pads, PadKey) && NewPads(pads, i) == []
    ensures PadOpsAt(pads, i) == []
  {
    if pads[i].landGroup.Some? {
      AscendingIsUnique(pads, PadKey);
      GroupElements(pads, pads[i].landGroup.value);
      assert pads[i] in pads;
    }
  }

  lemma EmittedAll(g: Graph)
    requires Ascending(g.pads, PadKey)
    ensures Emitted(g.pads, |g.pads|) == g.pads
  {
    assert g.pads[..|g.pads|] == g.pads;
    EmittedBegun(g, |g.pads|);
    forall p | p in g.pads ensures p in Emitted(g.pads, |g.pads|) {
      if p.landGroup.Some? {
        var a :| 0 <= a < |g.pads| && g.pads[a] == p;
        InGroups(g.pads, |g.pads|, p.landGroup.value);
      }
    }
    AscendingDetermined(Emitted(g.pads, |g.pads|), g.pads, PadKey);
  }

  lemma {:induction false} WithoutAll<T(!new)>(xs: seq<T>, drop: T -> bool)
    requires forall x :: x in xs ==> drop(x)
    ensures Without(xs, drop) == []
  {
    if xs != [] {
      assert xs[0] in xs;
      WithoutAll(xs[1..], drop);
    }
  }

  lemma EmittedNone(pads: seq<Pad>)
    ensures Emitted(pads, 0) == []
  {
    assert pads[..0] == [];
    WithoutAll(pads, (p: Pad) => !IsEmitted(pads, 0, p));
  }

  /** Emitting at pad `k` takes one pad state to the next. */
  ghost predicate PadRuns(step: (Graph, Op) -> Option<Graph>, g: Graph, k: nat) {
    k < |g.pads| && Run(step, PadState(g, k), PadOpsAt(g.pads, k)) == Some(PadState(g, k + 1))
  }

  lemma PadsFrom(step: (Graph, Op) -> Option<Graph>, g: Graph)
    requires forall k: nat :: k < |g.pads| ==> PadRuns(step, g, k)
    ensures Run(step, PadState(g, 0), PadOps(g.pads, 0)) == Some(PadState(g, |g.pads|))
  {
    var n := |g.pads|;
    var states := seq(n + 1, k requires 0 <= k <= n => PadState(g, k));
    var pieces := seq(n, k requires 0 <= k < n => PadOpsAt(g.pads, k));
    var rests := seq(n + 1, k requires 0 <= k <= n => PadOps(g.pads, k));
    forall k: nat, next: nat | next == k + 1 <= n ensures Run(step, states[k], pieces[k]) == Some(states[next]) {
      assert PadRuns(step, g, k);
    }
    RunPieces(step, states, pieces, rests, 0);
  }

  lemma PadsPhase(g: Graph)
    requires Buildable(g) && Tidy(g) && (forall p :: Mated(g.pads, p))
    ensures Replay(P5(g), PadOps(g.pads, 0)) == Some(P6(g))
  {
    forall k: nat | k < |g.pads| ensures PadRuns(Effect, g, k) {
      PadStep(g, k);
    }
    EmittedAll(g);
    EmittedNone(g.pads);
    assert PadState(g, 0) == P5(g);
    PadsFrom(Effect, g);
  }

  // ---------- Holes, tracks, vias, zones, wires, junctions ----------

  function PutHoles(g: Graph, ys: seq<Hole>): Graph { P6(g).(holes := ys) }

  lemma HolePart(g: Graph, k: nat)
    requires k <= |g.holes| && PadsBegun(g.pads, g.pads)
    ensures Partial(PutHoles(g, g.holes[..k]), g)
  {
  }

  lemma HoleApplies(g: Graph, k: nat)
    requires k < |g.holes| && UniqueKeys(g.holes, HoleKey) && WfHole(g.holes[k])
    ensures Apply(PutHoles(g, g.holes[..k]), HoleOp(g.holes[k])) == Ok(PutHoles(g, g.holes[..k + 1]))
  {
    Grow(g.holes, k, HoleKey);
  }

  lemma HolePhase(g: Graph)
    requires Buildable(g)
    ensures Replay(P6(g), MapSeq(g.holes, HoleOp)) == Some(P7(g))
  {
    var put := (ys: seq<Hole>) => PutHoles(g, ys);
    forall k: nat | k <= |g.holes| ensures Partial(put(g.holes[..k]), g) { HolePart(g, k); }
    forall k: nat ensures Emits(put, HoleOp, g.holes, k) {
      if k < |g.holes| {
        assert g.holes[k] in g.holes;
        HoleApplies(g, k);
        assert |put(g.holes[..k]).holes| != |put(g.holes[..k + 1]).holes|;
      }
    }
    AppendPhase(g, g.holes, put, HoleOp);
  }

  function PutTracks(g: Graph, ys: seq<Track>): Graph { P7(g).(tracks := ys) }

  lemma TrackPart(g: Graph, k: nat)
    requires k <= |g.tracks| && PadsBegun(g.pads, g.pads)
    ensures Partial(PutTracks(g, g.tracks[..k]), g)
  {
  }

  lemma TrackApplies(g: Graph, k: nat)
    requires k < |g.tracks| && UniqueKeys(g.tracks, TrackKey) && WfTrack(g.tracks[k])
    ensures Apply(PutTracks(g, g.tracks[..k]), TrackOp(g.tracks[k])) == Ok(PutTracks(g, g.tracks[..k + 1]))
  {
    Grow(g.tracks, k, TrackKey);
  }

  lemma TrackPhase(g: Graph)
    requires Buildable(g)
    ensures Replay(P7(g), MapSeq(g.tracks, TrackOp)) == Some(P8(g))
  {
    var put := (ys: seq<Track>) => PutTracks(g, ys);
    forall k: nat | k <= |g.tracks| ensures Partial(put(g.tracks[..k]), g) { TrackPart(g, k); }
    forall k: nat ensures Emits(put, TrackOp, g.tracks, k) {
      if k < |g.tracks| {
        assert g.tracks[k] in g.tracks;
        TrackApplies(g, k);
        assert |put(g.tracks[..k]).tracks| != |put(g.tracks[..k + 1]).tracks|;
      }
    }
    AppendPhase(g, g.tracks, put, TrackOp);
  }

  function PutVias(g: Graph, ys: seq<Via>): Graph { P8(g).(vias := ys) }

  lemma ViaPart(g: Graph, k: nat)
    requires k <= |g.vias| && PadsBegun(g.pads, g.pads)
    ensures Partial(PutVias(g, g.vias[..k]), g)
  {
  }

  lemma ViaApplies(g: Graph, k: nat)
    requires k < |g.vias| && UniqueKeys(g.vias, ViaKey) && WfVia(g.vias[k])
    ensures Apply(PutVias(g, g.vias[..k]), ViaOp(g.vias[k])) == Ok(PutVias(g, g.vias[..k + 1]))
  {
    Grow(g.vias, k, ViaKey);
  }

  lemma ViaPhase(g: Graph)
    requires Buildable(g)
    ensures Replay(P8(g), MapSeq(g.vias, ViaOp)) == Some(P9(g))
  {
    var put := (ys: seq<Via>) => PutVias(g, ys);
    forall k: nat | k <= |g.vias| ensures Partial(put(g.vias[..k]), g) { ViaPart(g, k); }
    forall k: nat ensures Emits(put, ViaOp, g.vias, k) {
      if k < |g.vias| {
        assert g.vias[k] in g.vias;
        ViaApplies(g, k);
        assert |put(g.vias[..k]).vias| != |put(g.vias[..k + 1]).vias|;
      }
    }
    AppendPhase(g, g.vias, put, ViaOp);
  }

  function PutZones(g: Graph, ys: seq<Zone>): Graph { P9(g).(zones := ys) }

  lemma ZonePart(g: Graph, k: nat)
    requires k <= |g.zones| && PadsBegun(g.pads, g.pads)
    ensures Partial(PutZones(g, g.zones[..k]), g)
  {
  }

  lemma ZoneApplies(g: Graph, k: nat)
    requires k < |g.zones| && UniqueKeys(g.zones, ZoneKey) && WfZone(g.zones[k]) && g.zones[k].fill.Unfilled?
    ensures Apply(PutZones(g, g.zones[..k]), ZoneOp(g.zones[k])) == Ok(PutZones(g, g.zones[..k + 1]))
  {
    Grow(g.zones, k, ZoneKey);
  }

  lemma ZonePhase(g: Graph)
    requires Buildable(g)
    ensures Replay(P9(g), MapSeq(g.zones, ZoneOp)) == Some(P10(g))
  {
    var put := (ys: seq<Zone>) => PutZones(g, ys);
    forall k: nat | k <= |g.zones| ensures Partial(put(g.zones[..k]), g) { ZonePart(g, k); }
    forall k: nat ensures Emits(put, ZoneOp, g.zones, k) {
      if k < |g.zones| {
        assert g.zones[k] in g.zones;
        ZoneApplies(g, k);
        assert |put(g.zones[..k]).zones| != |put(g.zones[..k + 1]).zones|;
      }
    }
    AppendPhase(g, g.zones, put, ZoneOp);
  }

  function PutWires(g: Graph, ys: seq<Wire>): Graph { P10(g).(wires := ys) }

  lemma WirePart(g: Graph, k: nat)
    requires k <= |g.wires| && PadsBegun(g.pads, g.pads)
    ensures Partial(PutWires(g, g.wires[..k]), g)
  {
  }

  lemma WireApplies(g: Graph, k: nat)
    requires k < |g.wires| && UniqueKeys(g.wires, WireKey) && WfWire(g.wires[k])
    ensures Apply(PutWires(g, g.wires[..k]), WireOp(g.wires[k])) == Ok(PutWires(g, g.wires[..k + 1]))
  {
    Grow(g.wires, k, WireKey);
  }

  lemma WirePhase(g: Graph)
    requires Buildable(g)
    ensures Replay(P10(g), MapSeq(g.wires, WireOp)) == Some(P11(g))
  {
    var put := (ys: seq<Wire>) => PutWires(g, ys);
    forall k: nat | k <= |g.wires| ensures Partial(put(g.wires[..k]), g) { WirePart(g, k); }
    forall k: nat ensures Emits(put, WireOp, g.wires, k) {
      if k < |g.wires| {
        assert g.wires[k] in g.wires;
        WireApplies(g, k);
        assert |put(g.wires[..k]).wires| != |put(g.wires[..k + 1]).wires|;
      }
    }
    AppendPhase(g, g.wires, put, WireOp);
  }

  function PutJunctions(g: Graph, ys: seq<Junction>): Graph { P11(g).(junctions := ys) }

  lemma JunctionPart(g: Graph, k: nat)
    requires k <= |g.junctions| && PadsBegun(g.pads, g.pads)
    ensures Partial(PutJunctions(g, g.junctions[..k]), g)
  {
  }

  lemma JunctionApplies(g: Graph, k: nat)
    requires k < |g.junctions| && UniqueKeys(g.junctions, JunctionKey)
    ensures Apply(PutJunctions(g, g.junctions[..k]), JunctionOp(g.junctions[k])) == Ok(PutJunctions(g, g.junctions[..k + 1]))
  {
    Grow(g.junctions, k, JunctionKey);
  }

  lemma JunctionPhase(g: Graph)
    requires Buildable(g)
    ensures Replay(P11(g), MapSeq(g.junctions, JunctionOp)) == Some(Whole(g))
  {
    var put := (ys: seq<Junction>) => PutJunctions(g, ys);
    forall k: nat | k <= |g.junctions| ensures Partial(put(g.junctions[..k]), g) { JunctionPart(g, k); }
    forall k: nat ensures Emits(put, JunctionOp, g.junctions, k) {
      if k < |g.junctions| {
        assert g.junctions[k] in g.junctions;
        JunctionApplies(g, k);
        assert |put(g.junctions[..k]).junctions| != |put(g.junctions[..k + 1]).junctions|;
      }
    }
    AppendPhase(g, g.junctions, put, JunctionOp);
  }

  function Whole(g: Graph): Graph { P11(g).(junctions := g.junctions) }

  // ---------- The whole list ----------

  lemma CircuitReplays(g: Graph)
    requires Buildable(g) && PinsOnOneNet(g) && PlacementsOk(g)
    ensures Replay(P0(g), CircuitOps(g)) == Some(P5(g))
  {
    var a := OutlineOps(g.outline);
    var b := a + MapSeq(g.components, ComponentOp);
    var c := b + MapSeq(g.nets, CreateOp);
    var d := c + ConnectOps(g.nets);
    OutlinePhase(g);
    ComponentsPhase(g);
    RunThen(Effect, P0(g), a, P1(g), MapSeq(g.components, ComponentOp), P2(g));
    CreatePhase(g);
    RunThen(Effect, P0(g), b, P2(g), MapSeq(g.nets, CreateOp), P3(g));
    NetsPhase(g);
    RunThen(Effect, P0(g), c, P3(g), ConnectOps(g.nets), P4(g));
    PlacementsPhase(g);
    RunThen(Effect, P0(g), d, P4(g), MapSeq(g.placements, PlacementOp), P5(g));
  }

  lemma CopperReplays(g: Graph, acc: seq<Op>)
    requires Buildable(g) && Tidy(g) && (forall p :: Mated(g.pads, p)) && Replay(P0(g), acc) == Some(P5(g))
    ensures Replay(P0(g), CopperOps(acc, g)) == Some(P10(g))
  {
    var a := acc + PadOps(g.pads, 0);
    var b := a + MapSeq(g.holes, HoleOp);
    var c := b + MapSeq(g.tracks, TrackOp);
    var d := c + MapSeq(g.vias, ViaOp);
    PadsPhase(g);
    RunThen(Effect, P0(g), acc, P5(g), PadOps(g.pads, 0), P6(g));
    HolePhase(g);
    RunThen(Effect, P0(g), a, P6(g), MapSeq(g.holes, HoleOp), P7(g));
    TrackPhase(g);
    RunThen(Effect, P0(g), b, P7(g), MapSeq(g.tracks, TrackOp), P8(g));
    ViaPhase(g);
    RunThen(Effect, P0(g), c, P8(g), MapSeq(g.vias, ViaOp), P9(g));
    ZonePhase(g);
    RunThen(Effect, P0(g), d, P9(g), MapSeq(g.zones, ZoneOp), P10(g));
  }

  lemma SheetReplays(g: Graph, acc: seq<Op>)
    requires Buildable(g) && Replay(P0(g), acc) == Some(P10(g))
    ensures Replay(P0(g), SheetOps(acc, g)) == Some(Whole(g))
  {
    WirePhase(g);
    RunThen(Effect, P0(g), acc, P10(g), MapSeq(g.wires, WireOp), P11(g));
    JunctionPhase(g);
    RunThen(Effect, P0(g), acc + MapSeq(g.wires, WireOp), P11(g), MapSeq(g.junctions, JunctionOp), Whole(g));
  }

  lemma ImportableReplays(g: Graph)
    requires Importable(g)
    ensures Replay(EmptyGraph(g.projectId), Payloads(g)) == Some(g)
  {
    ImportableBuilds(g);
    CircuitReplays(g);
    CopperReplays(g, CircuitOps(g));
    SheetReplays(g, CopperOps(CircuitOps(g), g));
    assert Whole(g) == g;
    assert EmptyGraph(g.projectId) == P0(g);
  }

  // ---------- The converse: nothing else can be rebuilt ----------

  /** What replay from the empty graph can never change or create. */
  ghost predicate Imported(h: Graph, project: Id) {
    && Settled(h) && h.projectId == project
    && h.layers == EmptyGraph(project).layers
    && forall z :: z in h.zones ==> z.fill.Unfilled?
  }

  lemma ApplyKeepsLayersAndFill(h: Graph, op: Op)
    requires Apply(h, op).Ok? && forall z :: z in h.zones ==> z.fill.Unfilled?
    ensures var r := Apply(h, op).value;
            r.projectId == h.projectId && r.layers == h.layers && forall z :: z in r.zones ==> z.fill.Unfilled?
  {
  }

  lemma NormalizeKeepsFill(r: Graph)
    requires forall z :: z in r.zones ==> z.fill.Unfilled?
    ensures forall z :: z in Normalize(r).zones ==> z.fill.Unfilled?
  {
    CanonMirrors(r.zones, NormZone, ZoneKey);
  }

  lemma SortLayersTwice(layers: seq<string>)
    requires UniqueKeys(layers, LayerKey)
    ensures SortBy(SortBy(layers, LayerKey), LayerKey) == SortBy(layers, LayerKey)
  {
    SortAscending(layers, LayerKey);
    SortOfAscending(SortBy(layers, LayerKey), LayerKey);
  }

  lemma DefaultLayersUnique()
    ensures UniqueKeys(DEFAULT_LAYERS, LayerKey)
  {
    assert LayerKey(DEFAULT_LAYERS[0])[0] != LayerKey(DEFAULT_LAYERS[1])[0];
  }

  lemma EffectKeepsImported(h: Graph, op: Op, project: Id)
    requires Imported(h, project) && Effect(h, op).Some?
    ensures Imported(Effect(h, op).value, project)
  {
    StepSettles(h, op);
    ApplyKeepsLayersAndFill(h, op);
    NormalizeKeepsFill(Apply(h, op).value);
    DefaultLayersUnique();
    SortLayersTwice(DEFAULT_LAYERS);
  }

  lemma EmptyImported(project: Id)
    ensures Imported(EmptyGraph(project), project)
  {
    var e := Graph(1, project, DEFAULT_LAYERS, [], [], [], [], [], [], [], [], [], [], []);
    DefaultLayersUnique();
    assert Valid(e);
    NormalizeKeepsWf(e);
    NormalizeKeepsValidity(e);
    ValidNormalizeTwice(e);
  }

  lemma ReplayKeepsImported(project: Id, ops: seq<Op>)
    requires Replay(EmptyGraph(project), ops).Some?
    ensures Imported(Replay(EmptyGraph(project), ops).value, project)
  {
    EmptyImported(project);
    forall h, op | Imported(h, project) && Effect(h, op).Some? ensures Imported(Effect(h, op).value, project) {
      EffectKeepsImported(h, op, project);
    }
    RunKeeps(Effect, (h: Graph) => Imported(h, project), EmptyGraph(project), ops);
  }

  /**
   Compiling a graph and replaying the commands from the empty graph never fails, never takes
   a step without effect, and ends exactly at the graph, if and only if the graph is valid,
   canonical, on the default layers and has no filled zone.
   */
  lemma CompileReplayRoundTrip(g: Graph)
    requires WfGraph(g)
    ensures Replay(EmptyGraph(g.projectId), Payloads(g)) == Some(g) <==> Importable(g)
  {
    if Importable(g) {
      ImportableReplays(g);
    }
    if Replay(EmptyGraph(g.projectId), Payloads(g)) == Some(g) {
      ReplayKeepsImported(g.projectId, Payloads(g));
    }
  }
}
