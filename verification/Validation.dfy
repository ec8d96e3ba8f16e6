/**
 `validate_graph` as written (backend/design_kernel/model.py:884-1113): loops that fill
 dictionaries and sets and stop at the first fault.  Each part is proved to accept exactly
 the graphs that meet its rule.
 */
module Validation {
  import opened Lex
  import opened Sorting
  import opened Geometry
  import opened Ring
  import opened Polygon
  import opened Wiring
  import opened Graph

  // ---------- Duplicate keys ----------

  method HasDuplicateKey<T>(xs: seq<T>, key: T -> Key) returns (found: bool)
    ensures found <==> !UniqueKeys(xs, key)
  {
    var seen: set<Key> := {};
    for k := 0 to |xs|
      invariant forall i :: 0 <= i < k ==> key(xs[i]) in seen
      invariant forall x :: x in seen ==> exists i :: 0 <= i < k && key(xs[i]) == x
      invariant forall i, j :: 0 <= i < j < k ==> key(xs[i]) != key(xs[j])
    {
      if key(xs[k]) in seen {
        return true;
      }
      seen := seen + {key(xs[k])};
    }
    return false;
  }

  method ValidateIds(g: Graph) returns (ok: bool)
    ensures ok <==> IdsUnique(g)
  {
    var d := HasDuplicateKey(g.components, ComponentKey);
    if d { return false; }
    d := HasDuplicateKey(g.components, ReferenceKey);
    if d { return false; }
    d := HasDuplicateKey(g.nets, NetKey);
    if d { return false; }
    d := HasDuplicateKey(g.nets, NetNameKey);
    if d { return false; }
    d := HasDuplicateKey(g.placements, PlacementKey);
    if d { return false; }
    d := HasDuplicateKey(g.tracks, TrackKey);
    if d { return false; }
    d := HasDuplicateKey(g.pads, PadKey);
    if d { return false; }
    d := HasDuplicateKey(g.holes, HoleKey);
    if d { return false; }
    d := HasDuplicateKey(g.vias, ViaKey);
    if d { return false; }
    d := HasDuplicateKey(g.zones, ZoneKey);
    if d { return false; }
    d := HasDuplicateKey(g.wires, WireKey);
    if d { return false; }
    d := HasDuplicateKey(g.junctions, JunctionKey);
    return !d;
  }

  lemma SameKeySameItem<T(!new)>(xs: seq<T>, key: T -> Key, x: T, y: T)
    requires UniqueKeys(xs, key) && x in xs && y in xs && key(x) == key(y)
    ensures x == y
  {
    var i :| 0 <= i < |xs| && xs[i] == x;
    var j :| 0 <= j < |xs| && xs[j] == y;
    assert !(i < j) && !(j < i);
  }

  // ---------- Components, nets and placements ----------

  /** The dictionary from component ID to component. */
  ghost predicate IndexesComponents(g: Graph, index: map<Id, Component>) {
    && (forall c :: c in g.components ==> c.id in index && index[c.id] == c)
    && (forall id :: id in index ==> index[id] in g.components && index[id].id == id)
  }

  method IndexComponents(g: Graph) returns (index: map<Id, Component>)
    requires UniqueKeys(g.components, ComponentKey)
    ensures IndexesComponents(g, index)
  {
    index := map[];
    for k := 0 to |g.components|
      invariant forall i :: 0 <= i < k ==> g.components[i].id in index && index[g.components[i].id] == g.components[i]
      invariant forall id :: id in index ==> index[id] in g.components && index[id].id == id
    {
      var c := g.components[k];
      assert forall i :: 0 <= i < k ==> ComponentKey(g.components[i]) != ComponentKey(c);
      index := index[c.id := c];
    }
  }

  method PinIsDeclared(c: Component, number: Id) returns (found: bool)
    ensures found <==> exists p :: p in c.pins && p.number == number
  {
    for k := 0 to |c.pins|
      invariant forall i :: 0 <= i < k ==> c.pins[i].number != number
    {
      if c.pins[k].number == number {
        return true;
      }
    }
    return false;
  }

  ghost predicate RecordsJoins(g: Graph, pinToNet: map<PinRef, Id>) {
    forall id, m :: Joined(g, id, m) <==> m in pinToNet && pinToNet[m] == id
  }

  /** Joins of the first `k` nets and the first `i` members of net `k`. */
  ghost predicate JoinedUpTo(g: Graph, k: nat, i: nat, id: Id, m: PinRef) {
    || (exists a :: 0 <= a < k && a < |g.nets| && g.nets[a].id == id && m in g.nets[a].members)
    || (k < |g.nets| && g.nets[k].id == id && i <= |g.nets[k].members| && m in g.nets[k].members[..i])
  }

  lemma JoinedUpToEnd(g: Graph, id: Id, m: PinRef)
    ensures JoinedUpTo(g, |g.nets|, 0, id, m) <==> Joined(g, id, m)
  {
    if Joined(g, id, m) {
      var n :| n in g.nets && n.id == id && m in n.members;
      var a :| 0 <= a < |g.nets| && g.nets[a] == n;
    }
  }

  lemma JoinedUpToNext(g: Graph, k: nat, next: nat, id: Id, m: PinRef)
    requires k < |g.nets| && next == k + 1
    ensures JoinedUpTo(g, k, |g.nets[k].members|, id, m) <==> JoinedUpTo(g, next, 0, id, m)
  {
    assert g.nets[k].members[..|g.nets[k].members|] == g.nets[k].members;
    if JoinedUpTo(g, k, |g.nets[k].members|, id, m) && m in g.nets[k].members && g.nets[k].id == id {
      assert k < k + 1;
    }
  }

  lemma JoinedUpToMember(g: Graph, k: nat, i: nat, j: nat, id: Id, m: PinRef)
    requires k < |g.nets| && i < |g.nets[k].members| && j == i + 1
    ensures JoinedUpTo(g, k, j, id, m) <==>
      JoinedUpTo(g, k, i, id, m) || (id == g.nets[k].id && m == g.nets[k].members[i])
  {
    var members := g.nets[k].members;
    assert members[..i + 1] == members[..i] + [members[i]];
  }

  ghost predicate RecordsUpTo(g: Graph, k: nat, i: nat, pinToNet: map<PinRef, Id>) {
    forall id, m :: JoinedUpTo(g, k, i, id, m) <==> m in pinToNet && pinToNet[m] == id
  }

  lemma RecordsMember(g: Graph, k: nat, i: nat, j: nat, before: map<PinRef, Id>)
    requires k < |g.nets| && i < |g.nets[k].members| && j == i + 1
    requires RecordsUpTo(g, k, i, before) && g.nets[k].members[i] !in before
    ensures RecordsUpTo(g, k, j, before[g.nets[k].members[i] := g.nets[k].id])
  {
    forall id, m { JoinedUpToMember(g, k, i, j, id, m); }
  }

  lemma RecordsNext(g: Graph, k: nat, next: nat, pinToNet: map<PinRef, Id>)
    requires k < |g.nets| && next == k + 1 && RecordsUpTo(g, k, |g.nets[k].members|, pinToNet)
    ensures RecordsUpTo(g, next, 0, pinToNet)
  {
    forall id, m { JoinedUpToNext(g, k, next, id, m); }
  }

  method ValidateMembers(g: Graph, index: map<Id, Component>) returns (ok: bool, pinToNet: map<PinRef, Id>)
    requires UniqueKeys(g.nets, NetKey) && IndexesComponents(g, index)
    requires forall n :: n in g.nets ==> WfNet(n)
    ensures ok <==> MembersKnown(g) && PinsOnOneNet(g)
    ensures ok ==> RecordsJoins(g, pinToNet)
  {
    pinToNet := map[];
    for k := 0 to |g.nets|
      invariant forall a, m :: 0 <= a < k && m in g.nets[a].members ==> HasPin(g, m.componentId, m.pin)
      invariant RecordsUpTo(g, k, 0, pinToNet)
    {
      var net := g.nets[k];
      for i := 0 to |net.members|
        invariant forall b :: 0 <= b < i ==> HasPin(g, net.members[b].componentId, net.members[b].pin)
        invariant RecordsUpTo(g, k, i, pinToNet)
      {
        var member := net.members[i];
        assert net in g.nets && member in net.members;
        if member.componentId !in index {
          assert !HasPin(g, member.componentId, member.pin);
          return false, pinToNet;
        }
        var component := index[member.componentId];
        var declared := PinIsDeclared(component, member.pin);
        assert declared <==> HasPin(g, member.componentId, member.pin);
        if !declared {
          return false, pinToNet;
        }
        if member in pinToNet {
          ghost var other := pinToNet[member];
          assert JoinedUpTo(g, k, i, other, member);
          TwiceJoined(g, k, i, other);
          return false, pinToNet;
        }
        RecordsMember(g, k, i, i + 1, pinToNet);
        pinToNet := pinToNet[member := net.id];
      }
      RecordsNext(g, k, k + 1, pinToNet);
    }
    forall id, m { JoinedUpToEnd(g, id, m); }
    forall n, m | n in g.nets && m in n.members ensures HasPin(g, m.componentId, m.pin) {
      var a :| 0 <= a < |g.nets| && g.nets[a] == n;
    }
    return true, pinToNet;
  }

  /** A member met a second time belongs to an earlier, different net. */
  lemma TwiceJoined(g: Graph, k: nat, i: nat, other: Id)
    requires k < |g.nets| && i < |g.nets[k].members| && WfNet(g.nets[k]) && UniqueKeys(g.nets, NetKey)
    requires JoinedUpTo(g, k, i, other, g.nets[k].members[i])
    ensures !PinsOnOneNet(g)
  {
    var m := g.nets[k].members[i];
    assert m !in g.nets[k].members[..i];
    var a :| 0 <= a < k && g.nets[a].id == other && m in g.nets[a].members;
    assert NetKey(g.nets[a]) != NetKey(g.nets[k]);
    assert Joined(g, other, m) by { assert g.nets[a] in g.nets; }
    assert Joined(g, g.nets[k].id, m) by { assert g.nets[k] in g.nets; }
  }

  method ValidateNetlist(g: Graph, index: map<Id, Component>, nets: set<Id>)
    returns (ok: bool, pinToNet: map<PinRef, Id>)
    requires UniqueKeys(g.nets, NetKey) && IndexesComponents(g, index)
    requires forall n :: n in g.nets ==> WfNet(n)
    requires forall id :: id in nets <==> HasNet(g, id)
    ensures ok <==> NetlistOk(g)
    ensures ok ==> RecordsJoins(g, pinToNet)
  {
    ok, pinToNet := ValidateMembers(g, index);
    if !ok {
      return;
    }
    for k := 0 to |g.placements|
      invariant forall i :: 0 <= i < k ==> HasComponent(g, g.placements[i].componentId)
    {
      assert g.placements[k] in g.placements;
      if g.placements[k].componentId !in index {
        assert !HasComponent(g, g.placements[k].componentId);
        return false, pinToNet;
      }
    }
    for k := 0 to |g.tracks|
      invariant forall i :: 0 <= i < k ==> TrackOk(g, g.tracks[i])
    {
      var t := g.tracks[k];
      assert t in g.tracks;
      if t.netId !in nets || t.layer !in g.layers {
        assert !TrackOk(g, t);
        return false, pinToNet;
      }
    }
  }

  // ---------- Pads ----------

  method MatchingPin(c: Component, padNumber: Id) returns (count: nat, number: Id)
    requires WfComponent(c)
    ensures count == 1 <==> exists p :: p in c.pins && p.padNumber == padNumber
    ensures count == 1 ==> forall p :: p in c.pins && p.padNumber == padNumber ==> p.number == number
  {
    count, number := 0, "";
    for k := 0 to |c.pins|
      invariant count <= 1
      invariant count == 1 <==> exists i :: 0 <= i < k && c.pins[i].padNumber == padNumber
      invariant count == 1 ==> forall i :: 0 <= i < k && c.pins[i].padNumber == padNumber ==> c.pins[i].number == number
    {
      if c.pins[k].padNumber == padNumber {
        assert forall i :: 0 <= i < k ==> PadNumberKey(c.pins[i]) != PadNumberKey(c.pins[k]);
        count, number := count + 1, c.pins[k].number;
      }
    }
    if count == 1 {
      var i :| 0 <= i < |c.pins| && c.pins[i].padNumber == padNumber;
      assert c.pins[i] in c.pins;
    }
  }

  method AllIn(layers: seq<string>, known: seq<string>) returns (ok: bool)
    ensures ok <==> forall l :: l in layers ==> l in known
  {
    for k := 0 to |layers|
      invariant forall i :: 0 <= i < k ==> layers[i] in known
    {
      if layers[k] !in known {
        return false;
      }
    }
    return true;
  }

  method ValidatePad(g: Graph, p: Pad, index: map<Id, Component>, pinToNet: map<PinRef, Id>,
                     nets: set<Id>, placed: set<Id>) returns (ok: bool)
    requires IndexesComponents(g, index) && RecordsJoins(g, pinToNet)
    requires forall c :: c in g.components ==> WfComponent(c)
    requires forall id :: id in nets <==> HasNet(g, id)
    requires forall id :: id in placed <==> HasPlacement(g, id)
    ensures ok <==> PadOk(g, p)
  {
    if p.componentId !in index || p.componentId !in placed {
      assert p.componentId !in index ==> !HasComponent(g, p.componentId);
      return false;
    }
    var c := index[p.componentId];
    assert HasComponent(g, p.componentId);
    var count, number := MatchingPin(c, p.padNumber);
    assert forall n :: PinOfPad(g, p.componentId, p.padNumber, n) <==>
      exists q :: q in c.pins && q.padNumber == p.padNumber && q.number == n;
    if count != 1 {
      return false;
    }
    assert PinOfPad(g, p.componentId, p.padNumber, number);
    assert forall n :: PinOfPad(g, p.componentId, p.padNumber, n) ==> n == number;
    var known := AllIn(p.layers, g.layers);
    if !known {
      return false;
    }
    if p.netId.Some? && p.netId.value !in nets {
      return false;
    }
    var pin := PinRef(p.componentId, number);
    if pin in pinToNet && p.netId != Some(pinToNet[pin]) {
      assert Joined(g, pinToNet[pin], pin);
      return false;
    }
    return true;
  }

  /** `dict.setdefault(key, []).append(item)` over a list. */
  method GroupBy<T(!new), K(==)>(xs: seq<T>, key: T -> Option<K>, ghost id: T -> Key) returns (groups: map<K, seq<T>>)
    requires UniqueKeys(xs, id)
    ensures forall k, x :: k in groups ==> (x in groups[k] <==> x in xs && key(x) == Some(k))
    ensures forall x :: x in xs && key(x).Some? ==> key(x).value in groups
    ensures forall k :: k in groups ==> groups[k] != [] && UniqueKeys(groups[k], id)
  {
    groups := map[];
    for n := 0 to |xs|
      invariant forall k, x :: k in groups ==> (x in groups[k] <==> x in xs[..n] && key(x) == Some(k))
      invariant forall x :: x in xs[..n] && key(x).Some? ==> key(x).value in groups
      invariant forall k :: k in groups ==> groups[k] != [] && UniqueKeys(groups[k], id)
    {
      var x := xs[n];
      assert xs[..n + 1] == xs[..n] + [x];
      assert forall i :: 0 <= i < n ==> id(xs[i]) != id(x);
      match key(x)
      case None =>
      case Some(k) =>
        var old' := if k in groups then groups[k] else [];
        assert forall i :: 0 <= i < |old'| ==> old'[i] in xs[..n];
        groups := groups[k := old' + [x]];
    }
    assert xs[..|xs|] == xs;
  }

  function LogicalKey(p: Pad): Option<(Id, Id)> { Some((p.componentId, p.padNumber)) }
  function LandKey(p: Pad): Option<Id> { p.landGroup }

  ghost predicate LogicalPairOk(p: Pad, q: Pad) {
    p.componentId == q.componentId && p.padNumber == q.padNumber ==> p.netId == q.netId
  }

  method ValidateLogicalPads(pads: seq<Pad>) returns (ok: bool)
    requires UniqueKeys(pads, PadKey)
    ensures ok <==> forall p, q :: p in pads && q in pads ==> LogicalPairOk(p, q)
  {
    var groups := GroupBy(pads, LogicalKey, PadKey);
    var todo := groups.Keys;
    while todo != {}
      invariant todo <= groups.Keys
      invariant forall k, p, q :: k in groups && k !in todo && p in groups[k] && q in groups[k] ==> p.netId == q.netId
    {
      var k :| k in todo;
      var group := groups[k];
      for i := 0 to |group|
        invariant forall j :: 0 <= j < i ==> group[j].netId == group[0].netId
      {
        if group[i].netId != group[0].netId {
          assert group[i] in groups[k] && group[0] in groups[k];
          assert LogicalKey(group[i]) == Some(k) && LogicalKey(group[0]) == Some(k);
          assert !LogicalPairOk(group[i], group[0]);
          return false;
        }
      }
      todo := todo - {k};
    }
    forall p, q | p in pads && q in pads ensures LogicalPairOk(p, q) {
      if p.componentId == q.componentId && p.padNumber == q.padNumber {
        var k := (p.componentId, p.padNumber);
        assert LogicalKey(p) == Some(k) && LogicalKey(q) == Some(k);
        assert p in groups[k] && q in groups[k];
      }
    }
    return true;
  }

  /** What one shared-land group must satisfy among all pads. */
  ghost predicate LandGroupOk(pads: seq<Pad>, k: Id) {
    && (forall p, q :: p in pads && q in pads && p.landGroup == Some(k) ==> LandPairOk(p, q))
    && (forall p: Pad :: p.landGroup == Some(k) ==> Mated(pads, p))
  }

  method ValidateLandGroup(pads: seq<Pad>, k: Id, group: seq<Pad>) returns (ok: bool)
    requires UniqueKeys(pads, PadKey) && UniqueKeys(group, PadKey) && group != []
    requires forall p :: p in group <==> p in pads && p.landGroup == Some(k)
    ensures ok <==> LandGroupOk(pads, k)
  {
    var first := group[0];
    assert first in group;
    if |group| < 2 {
      assert group == [first];
      assert !Mated(pads, first);
      return false;
    }
    assert PadKey(group[0]) != PadKey(group[1]) && group[1] in group;
    for i := 0 to |group|
      invariant forall j :: 0 <= j < i ==> group[j].componentId == first.componentId && LandOf(group[j]) == LandOf(first)
    {
      assert group[i] in group;
      if group[i].componentId != first.componentId || LandOf(group[i]) != LandOf(first) {
        assert !LandPairOk(first, group[i]);
        return false;
      }
    }
    var repeated := HasDuplicateKey(group, PadNumberOf);
    if repeated {
      RepeatedPadNumber(pads, k, group);
      return false;
    }
    for i := 0 to |pads|
      invariant forall j :: 0 <= j < i && pads[j].landGroup != Some(k) ==> LandOf(pads[j]) != LandOf(first)
    {
      assert pads[i] in pads;
      if pads[i].landGroup != Some(k) && LandOf(pads[i]) == LandOf(first) {
        assert !LandPairOk(first, pads[i]);
        return false;
      }
    }
    GroupIsOk(pads, k, group);
    return true;
  }

  function PadNumberOf(p: Pad): Key { Codes(p.padNumber) }

  lemma RepeatedPadNumber(pads: seq<Pad>, k: Id, group: seq<Pad>)
    requires UniqueKeys(group, PadKey) && !UniqueKeys(group, PadNumberOf)
    requires forall p :: p in group <==> p in pads && p.landGroup == Some(k)
    ensures !LandGroupOk(pads, k)
  {
    var i, j :| 0 <= i < j < |group| && PadNumberOf(group[i]) == PadNumberOf(group[j]);
    CodesInjective(group[i].padNumber, group[j].padNumber);
    assert PadKey(group[i]) != PadKey(group[j]);
    assert group[i] in group && group[j] in group;
    assert !LandPairOk(group[i], group[j]);
  }

  lemma GroupIsOk(pads: seq<Pad>, k: Id, group: seq<Pad>)
    requires |group| >= 2 && UniqueKeys(group, PadKey) && UniqueKeys(group, PadNumberOf)
    requires forall p :: p in group <==> p in pads && p.landGroup == Some(k)
    requires forall j :: 0 <= j < |group| ==>
      group[j].componentId == group[0].componentId && LandOf(group[j]) == LandOf(group[0])
    requires forall p :: p in pads && p.landGroup != Some(k) ==> LandOf(p) != LandOf(group[0])
    ensures LandGroupOk(pads, k)
  {
    forall p, q | p in pads && q in pads && p.landGroup == Some(k) ensures LandPairOk(p, q) {
      assert p in group;
      var i :| 0 <= i < |group| && group[i] == p;
      if q.landGroup == Some(k) {
        var j :| 0 <= j < |group| && group[j] == q;
        if i < j { assert PadNumberOf(p) != PadNumberOf(q); }
        if j < i { assert PadNumberOf(q) != PadNumberOf(p); }
      }
    }
    forall p: Pad | p.landGroup == Some(k) ensures Mated(pads, p) {
      assert PadKey(group[0]) != PadKey(group[1]) && group[0] in group && group[1] in group;
      var q := if group[0].id == p.id then group[1] else group[0];
      assert q in pads && q.landGroup == p.landGroup && q.id != p.id;
    }
  }

  method ValidateSharedLands(pads: seq<Pad>) returns (ok: bool)
    requires UniqueKeys(pads, PadKey)
    ensures ok <==> forall p :: p in pads && p.landGroup.Some? ==> LandGroupOk(pads, p.landGroup.value)
  {
    var groups := GroupBy(pads, LandKey, PadKey);
    var todo := groups.Keys;
    while todo != {}
      invariant todo <= groups.Keys
      invariant forall k :: k in groups && k !in todo ==> LandGroupOk(pads, k)
    {
      var k :| k in todo;
      var good := ValidateLandGroup(pads, k, groups[k]);
      if !good {
        assert groups[k][0] in groups[k];
        return false;
      }
      todo := todo - {k};
    }
    forall p | p in pads && p.landGroup.Some? ensures LandGroupOk(pads, p.landGroup.value) {
      assert LandKey(p).Some?;
    }
    return true;
  }

  lemma PadRulesByGroup(pads: seq<Pad>)
    ensures PadRulesOk(pads) <==>
      && (forall p, q :: p in pads && q in pads ==> LogicalPairOk(p, q))
      && (forall p :: p in pads && p.landGroup.Some? ==> LandGroupOk(pads, p.landGroup.value))
  {
    if PadRulesOk(pads) {
      forall p, q | p in pads && q in pads ensures LogicalPairOk(p, q) { assert PadPairOk(p, q); }
      forall p | p in pads && p.landGroup.Some? ensures LandGroupOk(pads, p.landGroup.value) {
        forall r, q | r in pads && q in pads && r.landGroup == p.landGroup ensures LandPairOk(r, q) {
          assert PadPairOk(r, q);
        }
      }
    }
    if (forall p, q :: p in pads && q in pads ==> LogicalPairOk(p, q)) &&
       (forall p :: p in pads && p.landGroup.Some? ==> LandGroupOk(pads, p.landGroup.value))
    {
      forall p, q | p in pads && q in pads ensures PadPairOk(p, q) {
        assert LogicalPairOk(p, q);
        assert p.landGroup.Some? ==> LandGroupOk(pads, p.landGroup.value);
      }
      forall p ensures Mated(pads, p) {
        if p in pads && p.landGroup.Some? { assert LandGroupOk(pads, p.landGroup.value); }
      }
    }
  }

  method ValidatePads(g: Graph, index: map<Id, Component>, pinToNet: map<PinRef, Id>, nets: set<Id>, placed: set<Id>)
    returns (ok: bool)
    requires IndexesComponents(g, index) && RecordsJoins(g, pinToNet) && UniqueKeys(g.pads, PadKey)
    requires forall c :: c in g.components ==> WfComponent(c)
    requires forall id :: id in nets <==> HasNet(g, id)
    requires forall id :: id in placed <==> HasPlacement(g, id)
    ensures ok <==> PadsOk(g)
  {
    for k := 0 to |g.pads|
      invariant forall i :: 0 <= i < k ==> PadOk(g, g.pads[i])
    {
      assert g.pads[k] in g.pads;
      var good := ValidatePad(g, g.pads[k], index, pinToNet, nets, placed);
      if !good {
        return false;
      }
    }
    PadRulesByGroup(g.pads);
    ok := ValidateLogicalPads(g.pads);
    if !ok {
      return;
    }
    ok := ValidateSharedLands(g.pads);
  }

  // ---------- Holes, vias, zones ----------

  method ValidateHole(g: Graph, hole: Hole, index: map<Id, Component>, placed: set<Id>) returns (ok: bool)
    requires IndexesComponents(g, index) && UniqueKeys(g.pads, PadKey)
    requires forall id :: id in placed <==> HasPlacement(g, id)
    ensures ok <==> HoleOk(g, hole)
  {
    if hole.componentId !in index || hole.componentId !in placed {
      return false;
    }
    assert HasComponent(g, hole.componentId);
    if hole.padId.Some? {
      ok := PadForHole(g.pads, hole);
    } else {
      ok := true;
    }
  }

  ghost predicate BoundOnceUpTo(holes: seq<Hole>, k: nat) {
    forall i, j :: 0 <= i < j < k && j < |holes| && holes[i].padId.Some? ==> holes[i].padId != holes[j].padId
  }

  lemma BoundOnceExactly(g: Graph)
    requires UniqueKeys(g.holes, HoleKey)
    ensures BoundOnceUpTo(g.holes, |g.holes|) <==> HolesBindOnce(g)
  {
    if BoundOnceUpTo(g.holes, |g.holes|) {
      forall a, b | a in g.holes && b in g.holes && a.padId.Some? && a.padId == b.padId ensures a.id == b.id {
        var i :| 0 <= i < |g.holes| && g.holes[i] == a;
        var j :| 0 <= j < |g.holes| && g.holes[j] == b;
      }
    }
    if HolesBindOnce(g) {
      forall i, j | 0 <= i < j < |g.holes| && g.holes[i].padId.Some? ensures g.holes[i].padId != g.holes[j].padId {
        assert HoleKey(g.holes[i]) != HoleKey(g.holes[j]);
        assert g.holes[i] in g.holes && g.holes[j] in g.holes;
      }
    }
  }

  method BindsOnce(holes: seq<Hole>) returns (ok: bool)
    ensures ok <==> BoundOnceUpTo(holes, |holes|)
  {
    var bound: set<Id> := {};
    for k := 0 to |holes|
      invariant forall i :: 0 <= i < k && holes[i].padId.Some? ==> holes[i].padId.value in bound
      invariant forall x :: x in bound ==> exists i :: 0 <= i < k && holes[i].padId == Some(x)
      invariant BoundOnceUpTo(holes, k)
    {
      var hole := holes[k];
      if hole.padId.Some? {
        if hole.padId.value in bound {
          return false;
        }
        bound := bound + {hole.padId.value};
      }
    }
    return true;
  }

  method ValidateHoles(g: Graph, index: map<Id, Component>, placed: set<Id>) returns (ok: bool)
    requires IndexesComponents(g, index) && UniqueKeys(g.pads, PadKey) && UniqueKeys(g.holes, HoleKey)
    requires forall id :: id in placed <==> HasPlacement(g, id)
    ensures ok <==> (forall h :: h in g.holes ==> HoleOk(g, h)) && HolesBindOnce(g)
  {
    ok := BindsOnce(g.holes);
    BoundOnceExactly(g);
    if !ok {
      return;
    }
    for k := 0 to |g.holes|
      invariant forall i :: 0 <= i < k ==> HoleOk(g, g.holes[i])
    {
      assert g.holes[k] in g.holes;
      ok := ValidateHole(g, g.holes[k], index, placed);
      if !ok {
        return;
      }
    }
    return true;
  }

  method PadForHole(pads: seq<Pad>, hole: Hole) returns (fits: bool)
    requires hole.padId.Some? && UniqueKeys(pads, PadKey)
    ensures fits <==> HoleHasPad(pads, hole)
  {
    for k := 0 to |pads|
      invariant forall i :: 0 <= i < k ==> pads[i].id != hole.padId.value
    {
      var p := pads[k];
      if p.id == hole.padId.value {
        assert p in pads;
        forall q | q in pads && q.id == hole.padId.value ensures q == p {
          SameKeySameItem(pads, PadKey, p, q);
        }
        return p.componentId == hole.componentId
            && p.drillX == hole.drillX && p.drillY == hole.drillY
            && NormPad(p).drillRotation == NormHole(hole).drillRotation
            && p.center == hole.center;
      }
    }
    return false;
  }

  method ValidateCopper(g: Graph, index: map<Id, Component>, nets: set<Id>, placed: set<Id>) returns (ok: bool)
    requires IndexesComponents(g, index) && UniqueKeys(g.pads, PadKey) && UniqueKeys(g.holes, HoleKey)
    requires forall id :: id in nets <==> HasNet(g, id)
    requires forall id :: id in placed <==> HasPlacement(g, id)
    ensures ok <==> CopperOk(g)
  {
    ok := ValidateHoles(g, index, placed);
    if !ok {
      return;
    }
    for k := 0 to |g.vias|
      invariant forall i :: 0 <= i < k ==> ViaOk(g, g.vias[i])
    {
      var via := g.vias[k];
      assert via in g.vias;
      var known := AllIn(via.layers, g.layers);
      if via.netId !in nets || !known {
        return false;
      }
    }
    for k := 0 to |g.zones|
      invariant forall i :: 0 <= i < k ==> ZoneOk(g, g.zones[i])
    {
      var zone := g.zones[k];
      assert zone in g.zones;
      if zone.netId !in nets || zone.layer !in g.layers {
        return false;
      }
      var simple := ValidateSimplePolygon(zone.outline);
      if !simple {
        return false;
      }
    }
  }

  // ---------- Schematic ----------

  lemma PairsByIndex(wires: seq<Wire>)
    requires UniqueKeys(wires, WireKey) && forall w :: w in wires ==> WfWire(w)
    requires forall i, j :: 0 <= i < j < |wires| ==> WirePairOk(wires[i], wires[j])
    ensures WirePairsOk(wires)
  {
    forall u, v | u in wires && v in wires ensures WirePairOk(u, v) {
      var i :| 0 <= i < |wires| && wires[i] == u;
      var j :| 0 <= j < |wires| && wires[j] == v;
      assert WfWire(u) && WfWire(v);
      if j < i && u.sheetId == v.sheetId {
        assert WireKey(wires[j]) != WireKey(wires[i]);
        assert WirePairOk(v, u);
        PathsClearSymmetric(v.vertices, u.vertices, u.netId == v.netId);
      }
    }
  }

  method ValidateWires(g: Graph, nets: set<Id>) returns (ok: bool)
    requires UniqueKeys(g.wires, WireKey) && forall w :: w in g.wires ==> WfWire(w)
    requires forall id :: id in nets <==> HasNet(g, id)
    ensures ok <==> (forall w :: w in g.wires ==> HasNet(g, w.netId)) && WirePairsOk(g.wires)
  {
    for k := 0 to |g.wires|
      invariant forall i :: 0 <= i < k ==> HasNet(g, g.wires[i].netId)
    {
      assert g.wires[k] in g.wires;
      if g.wires[k].netId !in nets {
        return false;
      }
    }
    for first := 0 to |g.wires|
      invariant forall i, j :: 0 <= i < first && i < j < |g.wires| ==> WirePairOk(g.wires[i], g.wires[j])
    {
      for second := first + 1 to |g.wires|
        invariant forall j :: first < j < second ==> WirePairOk(g.wires[first], g.wires[j])
      {
        var u, v := g.wires[first], g.wires[second];
        assert WireKey(u) != WireKey(v) && u in g.wires && v in g.wires;
        if u.sheetId == v.sheetId {
          var clear := ValidatePathPair(u.vertices, v.vertices, u.netId == v.netId);
          if !clear {
            assert !WirePairOk(u, v);
            return false;
          }
        }
      }
    }
    PairsByIndex(g.wires);
    return true;
  }

  /** The IDs of the wires that pass through the junction on its own net and sheet. */
  method SupportingWires(wires: seq<Wire>, j: Junction) returns (ids: set<Id>)
    ensures forall id :: id in ids <==> exists w :: w in wires && w.id == id && Supports(w, j)
  {
    ids := {};
    for k := 0 to |wires|
      invariant forall id :: id in ids <==> exists i :: 0 <= i < k && wires[i].id == id && Supports(wires[i], j)
    {
      var w := wires[k];
      if w.sheetId == j.sheetId && w.netId == j.netId {
        var on := IsOnPath(j.position, w.vertices);
        if on {
          ids := ids + {w.id};
        }
      }
    }
    forall id ensures id in ids <==> exists w :: w in wires && w.id == id && Supports(w, j) {
      if id in ids {
        var i :| 0 <= i < |wires| && wires[i].id == id && Supports(wires[i], j);
        assert wires[i] in wires;
      }
    }
  }

  lemma TwoElements<T>(s: set<T>)
    ensures |s| >= 2 <==> exists x, y :: x in s && y in s && x != y
  {
    if |s| >= 2 {
      var x :| x in s;
      var rest := s - {x};
      assert |rest| == |s| - 1;
      var y :| y in rest;
    }
    if x, y :| x in s && y in s && x != y {
      assert s == {x, y} + (s - {x, y});
      assert |{x, y}| == 2;
    }
  }

  lemma JoinsTwoByIds(wires: seq<Wire>, j: Junction, ids: set<Id>)
    requires forall id :: id in ids <==> exists w :: w in wires && w.id == id && Supports(w, j)
    ensures |ids| >= 2 <==> JoinsTwo(wires, j)
  {
    TwoElements(ids);
    if |ids| >= 2 {
      var x, y :| x in ids && y in ids && x != y;
      var u :| u in wires && u.id == x && Supports(u, j);
      var v :| v in wires && v.id == y && Supports(v, j);
    }
    if JoinsTwo(wires, j) {
      var u, v :| u in wires && v in wires && u.id != v.id && Supports(u, j) && Supports(v, j);
      assert u.id in ids && v.id in ids;
    }
  }

  method ValidateJunction(g: Graph, junction: Junction, nets: set<Id>) returns (ok: bool)
    requires forall id :: id in nets <==> HasNet(g, id)
    ensures ok <==> JunctionOk(g, junction)
  {
    if junction.netId !in nets {
      return false;
    }
    var ids := SupportingWires(g.wires, junction);
    JoinsTwoByIds(g.wires, junction, ids);
    return |ids| >= 2;
  }

  function LocationOf(j: Junction): (Id, Point) { (j.sheetId, j.position) }

  ghost predicate ApartUpTo(js: seq<Junction>, k: nat) {
    forall i, j :: 0 <= i < j < k && j < |js| ==> LocationOf(js[i]) != LocationOf(js[j])
  }

  lemma ApartExactly(g: Graph)
    requires UniqueKeys(g.junctions, JunctionKey)
    ensures ApartUpTo(g.junctions, |g.junctions|) <==> JunctionsApart(g)
  {
    if ApartUpTo(g.junctions, |g.junctions|) {
      forall a, b | a in g.junctions && b in g.junctions && a.sheetId == b.sheetId && a.position == b.position
        ensures a.id == b.id
      {
        var i :| 0 <= i < |g.junctions| && g.junctions[i] == a;
        var j :| 0 <= j < |g.junctions| && g.junctions[j] == b;
        assert LocationOf(a) == LocationOf(b);
      }
    }
    if JunctionsApart(g) {
      forall i, j | 0 <= i < j < |g.junctions| ensures LocationOf(g.junctions[i]) != LocationOf(g.junctions[j]) {
        assert JunctionKey(g.junctions[i]) != JunctionKey(g.junctions[j]);
        assert g.junctions[i] in g.junctions && g.junctions[j] in g.junctions;
      }
    }
  }

  method LocationsApart(js: seq<Junction>) returns (ok: bool)
    ensures ok <==> ApartUpTo(js, |js|)
  {
    var locations: set<(Id, Point)> := {};
    for k := 0 to |js|
      invariant forall i :: 0 <= i < k ==> LocationOf(js[i]) in locations
      invariant forall x :: x in locations ==> exists i :: 0 <= i < k && LocationOf(js[i]) == x
      invariant ApartUpTo(js, k)
    {
      if LocationOf(js[k]) in locations {
        return false;
      }
      locations := locations + {LocationOf(js[k])};
    }
    return true;
  }

  method ValidateJunctions(g: Graph, nets: set<Id>) returns (ok: bool)
    requires UniqueKeys(g.junctions, JunctionKey)
    requires forall id :: id in nets <==> HasNet(g, id)
    ensures ok <==> (forall j :: j in g.junctions ==> JunctionOk(g, j)) && JunctionsApart(g)
  {
    ok := LocationsApart(g.junctions);
    ApartExactly(g);
    if !ok {
      return;
    }
    for k := 0 to |g.junctions|
      invariant forall i :: 0 <= i < k ==> JunctionOk(g, g.junctions[i])
    {
      assert g.junctions[k] in g.junctions;
      ok := ValidateJunction(g, g.junctions[k], nets);
      if !ok {
        return;
      }
    }
    return true;
  }

  // ---------- The whole check ----------

  method ValidateFrame(g: Graph) returns (ok: bool)
    ensures ok <==> FrameOk(g)
  {
    if g.schemaVersion != 1 || g.layers == [] {
      return false;
    }
    var repeated := HasDuplicateKey(g.layers, LayerKey);
    if repeated {
      return false;
    }
    if g.outline != [] {
      ok := ValidateSimplePolygon(g.outline);
    } else {
      ok := true;
    }
  }

  /** The loops accept exactly the graphs that meet every rule. */
  method ValidateGraph(g: Graph) returns (ok: bool)
    requires WfGraph(g)
    ensures ok <==> Valid(g)
  {
    ok := ValidateFrame(g);
    if !ok { return; }
    ok := ValidateIds(g);
    if !ok { return; }
    var index := IndexComponents(g);
    var nets := set n | n in g.nets :: n.id;
    var placed := set p | p in g.placements :: p.componentId;
    var pinToNet: map<PinRef, Id>;
    ok, pinToNet := ValidateNetlist(g, index, nets);
    if !ok { return; }
    ok := ValidatePads(g, index, pinToNet, nets, placed);
    if !ok { return; }
    ok := ValidateCopper(g, index, nets, placed);
    if !ok { return; }
    ok := ValidateWires(g, nets);
    if !ok { return; }
    ok := ValidateJunctions(g, nets);
  }
}
