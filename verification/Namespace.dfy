/**
 Resolution of raw PCB nets to schematic nets (backend/canonical_import/_semantics.py:41-244) and the
 logical view of the board built from it (backend/canonical_import/mapper.py:288-348).
 The digest that makes a net ID from a name is a parameter.
 */
module Namespace {
  import opened Graph
  import opened Geometry
  import opened Dictionary

  // ---------- Source records ----------

  datatype LabelKind = LocalLabel | GlobalLabel
  datatype Label = Label(id: Id, name: string, kind: LabelKind)
  datatype SchematicNet = SchematicNet(id: Id, name: Option<string>, labelIds: seq<Id>)
  datatype SymbolPin = SymbolPin(number: Id, name: string, electricalType: string, position: Point)
  datatype Symbol = Symbol(reference: Id, pins: seq<SymbolPin>)
  datatype Schematic = Schematic(symbols: seq<Symbol>, noConnects: seq<Point>, labels: seq<Label>, nets: seq<SchematicNet>)

  datatype PadKind = Surface | ThroughHole | Unplated
  datatype BoardPad = BoardPad(id: Id, number: Id, kind: PadKind, netId: Option<Id>, pinFunction: Option<string>, pinType: Option<string>)
  datatype Footprint = Footprint(reference: Id, pads: seq<BoardPad>)
  datatype BoardNet = BoardNet(id: Id, name: string)
  datatype Copper = Copper(id: Id, netId: Id)
  datatype Pour = Pour(id: Id, netId: Id, netName: string)
  datatype Board = Board(nets: seq<BoardNet>, footprints: seq<Footprint>, segments: seq<Copper>, vias: seq<Copper>, zones: seq<Pour>)

  ghost predicate KnownNet(b: Board, id: Id) { exists n :: n in b.nets && n.id == id }

  predicate DistinctPads(pads: seq<BoardPad>) { forall i, j :: 0 <= i < j < |pads| ==> pads[i].id != pads[j].id }

  /** What a validated board guarantees about nets and pads (backend/kicad_io/model.py:284-286, 716-757). */
  ghost predicate BoardOk(b: Board) {
    && (forall i, j :: 0 <= i < j < |b.nets| ==> b.nets[i].id != b.nets[j].id && b.nets[i].name != b.nets[j].name)
    && (forall f, p :: f in b.footprints && p in f.pads ==>
          (p.netId.Some? ==> KnownNet(b, p.netId.value)) && (p.kind == Unplated ==> p.netId.None?))
    && (forall f :: f in b.footprints ==> DistinctPads(f.pads))
    && (forall s :: s in b.segments ==> KnownNet(b, s.netId))
    && (forall v :: v in b.vias ==> KnownNet(b, v.netId))
    && (forall z :: z in b.zones ==> KnownNet(b, z.netId))
  }

  // ---------- Names ----------

  function LabelId(l: Label): Id { l.id }

  predicate LabelsFound(sch: Schematic, s: SchematicNet) {
    s.labelIds != [] && forall x :: x in s.labelIds ==> FindBy(sch.labels, LabelId, x).Some?
  }

  predicate LabelsAgree(sch: Schematic, s: SchematicNet) {
    forall x :: x in s.labelIds ==>
      FindBy(sch.labels, LabelId, x).Some? ==> Some(FindBy(sch.labels, LabelId, x).value.name) == s.name
  }

  /** Only local labels. */
  predicate LocalOnly(sch: Schematic, s: SchematicNet) {
    s.labelIds != [] && forall x :: x in s.labelIds ==>
      FindBy(sch.labels, LabelId, x).Some? && FindBy(sch.labels, LabelId, x).value.kind == LocalLabel
  }

  /** Raw PCB names a schematic net answers to. */
  function Aliases(sch: Schematic, s: SchematicNet): seq<string> {
    match s.name
    case None => []
    case Some(name) => if LocalOnly(sch, s) then [name, "/" + name] else [name]
  }

  // ---------- What a clean resolution means ----------

  predicate NamedNet(netIdOf: string -> Id, sch: Schematic, s: SchematicNet) {
    s.name.Some? && s.id == netIdOf(s.name.value) && LabelsFound(sch, s) && LabelsAgree(sch, s)
  }

  ghost predicate SchematicClean(netIdOf: string -> Id, sch: Schematic, nets: seq<SchematicNet>) {
    && (forall s :: s in nets ==> NamedNet(netIdOf, sch, s))
    && (forall s, t, a :: s in nets && t in nets && a in Aliases(sch, s) && a in Aliases(sch, t) ==> s.id == t.id)
  }

  /** The raw name belongs to the logical net. */
  ghost predicate Owns(sch: Schematic, l: Id, name: string) {
    exists s :: s in sch.nets && s.id == l && name in Aliases(sch, s)
  }

  /** Every kept raw net has an owner, and no two of them have the same one. */
  ghost predicate BoardClean(netIdOf: string -> Id, sch: Schematic, nets: seq<BoardNet>, ignored: set<Id>) {
    && (forall n :: n in nets && n.id !in ignored ==> n.id == netIdOf(n.name) && exists l :: Owns(sch, l, n.name))
    && (forall raw, other, l :: MapsTo(sch, nets, ignored, raw, l) && MapsTo(sch, nets, ignored, other, l) ==> raw == other)
  }

  /** A kept raw net answers to a name of the logical net. */
  ghost predicate MapsTo(sch: Schematic, nets: seq<BoardNet>, ignored: set<Id>, raw: Id, l: Id) {
    raw !in ignored && exists n :: n in nets && n.id == raw && Owns(sch, l, n.name)
  }

  ghost predicate Mapped(sch: Schematic, nets: seq<BoardNet>, ignored: set<Id>, l: Id) {
    exists raw :: MapsTo(sch, nets, ignored, raw, l)
  }

  ghost predicate NamespaceClean(netIdOf: string -> Id, sch: Schematic, b: Board, ignored: set<Id>) {
    && SchematicClean(netIdOf, sch, sch.nets) && BoardClean(netIdOf, sch, b.nets, ignored)
    && (forall s :: s in sch.nets ==> Mapped(sch, b.nets, ignored, s.id))
  }

  // ---------- The resolver ----------

  datatype Issue =
    | UnnamedNet | SchematicIdMismatch | LabelMissing | LabelMismatch | AliasCollision
    | BoardIdMismatch | NoOwner | Ambiguous | NoBoardNet

  datatype Names = Names(owner: map<string, Id>, logical: map<Id, string>, issues: seq<Issue>)

  /** What the schematic loop has established when it has found nothing wrong. */
  ghost predicate NamesOk(sch: Schematic, nets: seq<SchematicNet>, m: Names) {
    OwnersOk(sch, nets, m.owner) && ListedOk(nets, m.logical)
  }

  /** The names of exactly the nets seen. */
  ghost predicate ListedOk(nets: seq<SchematicNet>, logical: map<Id, string>) {
    && (forall l :: l in logical <==> exists s :: s in nets && s.id == l)
    && forall l :: l in logical ==> NameOf(nets, l, logical[l])
  }

  /** Some schematic net with this ID has this name. */
  ghost predicate NameOf(nets: seq<SchematicNet>, l: Id, name: string) { exists s :: s in nets && s.id == l && s.name == Some(name) }

  ghost predicate OwnersOk(sch: Schematic, nets: seq<SchematicNet>, owner: map<string, Id>) {
    forall a :: OwnerOk(sch, nets, owner, a)
  }

  /** The table knows the name exactly when some net answers to it, and then names that net. */
  ghost predicate OwnerOk(sch: Schematic, nets: seq<SchematicNet>, owner: map<string, Id>, a: string) {
    && (a in owner <==> exists s :: s in nets && a in Aliases(sch, s))
    && (forall s :: s in nets && a in Aliases(sch, s) ==> a in owner && owner[a] == s.id)
  }

  /** Enters the aliases of one net; a name another net owns is a collision. */
  method EnterAliases(owner: map<string, Id>, aliases: seq<string>, id: Id) returns (next: map<string, Id>, clean: bool)
    ensures clean <==> forall a :: a in aliases && a in owner ==> owner[a] == id
    ensures clean ==> forall a :: a in next <==> a in owner || a in aliases
    ensures clean ==> forall a :: a in next ==> next[a] == if a in aliases then id else owner[a]
    ensures forall a :: a in next ==> next[a] == id || (a in owner && next[a] == owner[a])
  {
    next, clean := owner, true;
    var i := 0;
    while i < |aliases|
      invariant 0 <= i <= |aliases|
      invariant clean <==> forall a :: a in aliases[..i] && a in owner ==> owner[a] == id
      invariant clean ==> forall a :: a in next <==> a in owner || a in aliases[..i]
      invariant clean ==> forall a :: a in next ==> next[a] == if a in aliases[..i] then id else owner[a]
      invariant forall a :: a in next ==> next[a] == id || (a in owner && next[a] == owner[a])
    {
      var a := aliases[i];
      assert aliases[..i + 1] == aliases[..i] + [a];
      if a in next && next[a] != id {
        clean := false;
      } else {
        next := next[a := id];
      }
      i := i + 1;
    }
    assert aliases[..i] == aliases;
  }

  /** One more net stays clean exactly when it is named and takes no other net's alias. */
  lemma CleanStep(netIdOf: string -> Id, sch: Schematic, nets: seq<SchematicNet>, s: SchematicNet, m: Names)
    requires SchematicClean(netIdOf, sch, nets) ==> NamesOk(sch, nets, m)
    ensures SchematicClean(netIdOf, sch, nets + [s]) <==>
      && SchematicClean(netIdOf, sch, nets) && NamedNet(netIdOf, sch, s)
      && forall a :: a in Aliases(sch, s) && a in m.owner ==> m.owner[a] == s.id
  {
    var more := nets + [s];
    assert forall t :: t in more <==> t in nets || t == s;
    if SchematicClean(netIdOf, sch, more) {
      assert SchematicClean(netIdOf, sch, nets) && NamedNet(netIdOf, sch, s);
      forall a | a in Aliases(sch, s) && a in m.owner ensures m.owner[a] == s.id {
        assert OwnerOk(sch, nets, m.owner, a);
        var t :| t in nets && a in Aliases(sch, t);
      }
    }
    if SchematicClean(netIdOf, sch, nets) && NamedNet(netIdOf, sch, s)
       && (forall a :: a in Aliases(sch, s) && a in m.owner ==> m.owner[a] == s.id) {
      forall t, a | t in nets && a in Aliases(sch, t) && a in Aliases(sch, s) ensures t.id == s.id {
        assert OwnerOk(sch, nets, m.owner, a);
      }
    }
  }

  lemma OwnersStep(sch: Schematic, nets: seq<SchematicNet>, s: SchematicNet, owner: map<string, Id>, next: map<string, Id>)
    requires OwnersOk(sch, nets, owner)
    requires forall a :: a in Aliases(sch, s) && a in owner ==> owner[a] == s.id
    requires forall a :: a in next <==> a in owner || a in Aliases(sch, s)
    requires forall a :: a in next ==> next[a] == if a in Aliases(sch, s) then s.id else owner[a]
    ensures OwnersOk(sch, nets + [s], next)
  {
    var more := nets + [s];
    assert forall t :: t in more <==> t in nets || t == s;
    forall a ensures OwnerOk(sch, more, next, a) {
      assert OwnerOk(sch, nets, owner, a);
    }
  }

  lemma ListedStep(nets: seq<SchematicNet>, s: SchematicNet, logical: map<Id, string>)
    requires ListedOk(nets, logical) && s.name.Some?
    ensures ListedOk(nets + [s], logical[s.id := s.name.value])
  {
    var more := nets + [s];
    assert forall t :: t in more <==> t in nets || t == s;
    forall l | l in logical && l != s.id ensures NameOf(more, l, logical[l]) {
      var t :| t in nets && t.id == l && t.name == Some(logical[l]);
      assert t in more;
    }
  }

  /** The schematic loop: every net named, bound to its ID and labels, and alone on its aliases. */
  method ReadSchematic(netIdOf: string -> Id, sch: Schematic) returns (m: Names)
    ensures m.issues == [] <==> SchematicClean(netIdOf, sch, sch.nets)
    ensures m.issues == [] ==> NamesOk(sch, sch.nets, m)
    ensures forall a :: a in m.owner ==> m.owner[a] in m.logical
  {
    m := Names(map[], map[], []);
    var i := 0;
    while i < |sch.nets|
      invariant 0 <= i <= |sch.nets|
      invariant m.issues == [] <==> SchematicClean(netIdOf, sch, sch.nets[..i])
      invariant m.issues == [] ==> NamesOk(sch, sch.nets[..i], m)
      invariant forall a :: a in m.owner ==> m.owner[a] in m.logical
    {
      var s := sch.nets[i];
      assert sch.nets[..i + 1] == sch.nets[..i] + [s];
      CleanStep(netIdOf, sch, sch.nets[..i], s, m);
      i := i + 1;
      if s.name.None? {
        m := m.(issues := m.issues + [UnnamedNet]);
        continue;
      }
      ghost var before := m;
      if s.id != netIdOf(s.name.value) {
        m := m.(issues := m.issues + [SchematicIdMismatch]);
      }
      if !LabelsFound(sch, s) {
        m := m.(issues := m.issues + [LabelMissing]);
        continue;
      }
      if !LabelsAgree(sch, s) {
        m := m.(issues := m.issues + [LabelMismatch]);
        continue;
      }
      var next, clean := EnterAliases(m.owner, Aliases(sch, s), s.id);
      if m.issues == [] && clean {
        OwnersStep(sch, sch.nets[..i - 1], s, m.owner, next);
        ListedStep(sch.nets[..i - 1], s, m.logical);
      }
      m := Names(next, m.logical[s.id := s.name.value], if clean then m.issues else m.issues + [AliasCollision]);
    }
    assert sch.nets[..i] == sch.nets;
  }

  // ---------- The board loop ----------

  datatype Mapping = Mapping(raw: Id, logical: Id, name: string)

  datatype Pairing = Pairing(boardOf: map<Id, Id>, mappings: seq<Mapping>, issues: seq<Issue>)

  /** The same notions read off the owner table. */
  ghost predicate TableMaps(owner: map<string, Id>, nets: seq<BoardNet>, ignored: set<Id>, raw: Id, l: Id) {
    raw !in ignored && exists n :: n in nets && n.id == raw && n.name in owner && owner[n.name] == l
  }

  ghost predicate TableClean(netIdOf: string -> Id, owner: map<string, Id>, nets: seq<BoardNet>, ignored: set<Id>) {
    && (forall n :: n in nets && n.id !in ignored ==> n.id == netIdOf(n.name) && n.name in owner)
    && (forall raw, other, l :: TableMaps(owner, nets, ignored, raw, l) && TableMaps(owner, nets, ignored, other, l) ==> raw == other)
  }

  /** What the board loop has established when it has found nothing wrong. */
  ghost predicate PairingOk(owner: map<string, Id>, nets: seq<BoardNet>, ignored: set<Id>, p: Pairing) {
    && (forall l, raw :: TableMaps(owner, nets, ignored, raw, l) <==> l in p.boardOf && p.boardOf[l] == raw)
    && (forall raw, l :: TableMaps(owner, nets, ignored, raw, l) <==> exists x :: x in p.mappings && x.raw == raw && x.logical == l)
  }

  lemma TableStep(owner: map<string, Id>, nets: seq<BoardNet>, n: BoardNet, ignored: set<Id>, raw: Id, l: Id)
    ensures TableMaps(owner, nets + [n], ignored, raw, l) <==>
      || TableMaps(owner, nets, ignored, raw, l)
      || (raw == n.id && n.id !in ignored && n.name in owner && owner[n.name] == l)
  {
    assert forall k :: k in nets + [n] <==> k in nets || k == n;
  }

  lemma BoardStep(netIdOf: string -> Id, owner: map<string, Id>, nets: seq<BoardNet>, n: BoardNet, ignored: set<Id>, p: Pairing)
    requires TableClean(netIdOf, owner, nets, ignored) ==> PairingOk(owner, nets, ignored, p)
    ensures TableClean(netIdOf, owner, nets + [n], ignored) <==>
      && TableClean(netIdOf, owner, nets, ignored)
      && (n.id !in ignored ==>
          && n.id == netIdOf(n.name) && n.name in owner
          && (owner[n.name] in p.boardOf ==> p.boardOf[owner[n.name]] == n.id))
  {
    var more := nets + [n];
    assert forall k :: k in more <==> k in nets || k == n;
    forall raw, l
      ensures TableMaps(owner, more, ignored, raw, l) <==>
        TableMaps(owner, nets, ignored, raw, l) || (raw == n.id && n.id !in ignored && n.name in owner && owner[n.name] == l)
    {
      TableStep(owner, nets, n, ignored, raw, l);
    }
    if TableClean(netIdOf, owner, nets, ignored) && n.id !in ignored && n.name in owner && owner[n.name] in p.boardOf {
      var l := owner[n.name];
      assert TableMaps(owner, nets, ignored, p.boardOf[l], l);
      assert TableMaps(owner, more, ignored, p.boardOf[l], l) && TableMaps(owner, more, ignored, n.id, l);
    }
  }

  lemma PairingStep(owner: map<string, Id>, nets: seq<BoardNet>, n: BoardNet, ignored: set<Id>, p: Pairing, x: Mapping)
    requires PairingOk(owner, nets, ignored, p)
    requires n.id !in ignored && n.name in owner && x.raw == n.id && x.logical == owner[n.name]
    requires x.logical in p.boardOf ==> p.boardOf[x.logical] == n.id
    ensures PairingOk(owner, nets + [n], ignored, p.(boardOf := p.boardOf[x.logical := n.id], mappings := p.mappings + [x]))
  {
    forall raw, l
      ensures TableMaps(owner, nets + [n], ignored, raw, l) <==> TableMaps(owner, nets, ignored, raw, l) || (raw == n.id && l == x.logical)
    {
      TableStep(owner, nets, n, ignored, raw, l);
    }
    assert forall y :: y in p.mappings + [x] <==> y in p.mappings || y == x;
  }

  lemma IgnoredStep(owner: map<string, Id>, nets: seq<BoardNet>, n: BoardNet, ignored: set<Id>, p: Pairing)
    requires PairingOk(owner, nets, ignored, p) && n.id in ignored
    ensures PairingOk(owner, nets + [n], ignored, p)
  {
    forall raw, l ensures TableMaps(owner, nets + [n], ignored, raw, l) <==> TableMaps(owner, nets, ignored, raw, l) {
      TableStep(owner, nets, n, ignored, raw, l);
    }
  }

  method ReadBoard(netIdOf: string -> Id, b: Board, ignored: set<Id>, m: Names) returns (p: Pairing)
    requires forall a :: a in m.owner ==> m.owner[a] in m.logical
    ensures p.issues == [] <==> TableClean(netIdOf, m.owner, b.nets, ignored)
    ensures p.issues == [] ==> PairingOk(m.owner, b.nets, ignored, p)
    ensures forall x :: x in p.mappings ==> x.logical in m.logical && x.name == m.logical[x.logical]
  {
    p := Pairing(map[], [], []);
    var i := 0;
    while i < |b.nets|
      invariant 0 <= i <= |b.nets|
      invariant p.issues == [] <==> TableClean(netIdOf, m.owner, b.nets[..i], ignored)
      invariant p.issues == [] ==> PairingOk(m.owner, b.nets[..i], ignored, p)
      invariant forall x :: x in p.mappings ==> x.logical in m.logical && x.name == m.logical[x.logical]
    {
      var n := b.nets[i];
      assert b.nets[..i + 1] == b.nets[..i] + [n];
      BoardStep(netIdOf, m.owner, b.nets[..i], n, ignored, p);
      i := i + 1;
      if n.id in ignored {
        if p.issues == [] { IgnoredStep(m.owner, b.nets[..i - 1], n, ignored, p); }
        continue;
      }
      if n.id != netIdOf(n.name) {
        p := p.(issues := p.issues + [BoardIdMismatch]);
      }
      if n.name !in m.owner {
        p := p.(issues := p.issues + [NoOwner]);
        continue;
      }
      var l := m.owner[n.name];
      if l in p.boardOf && p.boardOf[l] != n.id {
        p := p.(issues := p.issues + [Ambiguous]);
        continue;
      }
      var x := Mapping(n.id, l, m.logical[l]);
      if p.issues == [] { PairingStep(m.owner, b.nets[..i - 1], n, ignored, p, x); }
      p := p.(boardOf := p.boardOf[l := n.id], mappings := p.mappings + [x]);
    }
    assert b.nets[..i] == b.nets;
  }

  // ---------- The table means the schematic ----------

  lemma OwnerIs(sch: Schematic, owner: map<string, Id>, name: string, l: Id)
    requires OwnersOk(sch, sch.nets, owner)
    ensures Owns(sch, l, name) <==> name in owner && owner[name] == l
  {
    assert OwnerOk(sch, sch.nets, owner, name);
  }

  lemma TableIs(sch: Schematic, owner: map<string, Id>, nets: seq<BoardNet>, ignored: set<Id>, raw: Id, l: Id)
    requires OwnersOk(sch, sch.nets, owner)
    ensures TableMaps(owner, nets, ignored, raw, l) <==> MapsTo(sch, nets, ignored, raw, l)
  {
    forall n | n in nets ensures Owns(sch, l, n.name) <==> n.name in owner && owner[n.name] == l { OwnerIs(sch, owner, n.name, l); }
  }

  lemma TableCleanIs(netIdOf: string -> Id, sch: Schematic, owner: map<string, Id>, nets: seq<BoardNet>, ignored: set<Id>)
    requires OwnersOk(sch, sch.nets, owner)
    ensures TableClean(netIdOf, owner, nets, ignored) <==> BoardClean(netIdOf, sch, nets, ignored)
  {
    forall n | n in nets ensures n.name in owner <==> exists l :: Owns(sch, l, n.name) {
      if n.name in owner { OwnerIs(sch, owner, n.name, owner[n.name]); }
      if l :| Owns(sch, l, n.name) { OwnerIs(sch, owner, n.name, l); }
    }
    forall raw, l ensures TableMaps(owner, nets, ignored, raw, l) <==> MapsTo(sch, nets, ignored, raw, l) {
      TableIs(sch, owner, nets, ignored, raw, l);
    }
  }

  lemma PairedIs(sch: Schematic, owner: map<string, Id>, nets: seq<BoardNet>, ignored: set<Id>, p: Pairing, l: Id)
    requires OwnersOk(sch, sch.nets, owner) && PairingOk(owner, nets, ignored, p)
    ensures l in p.boardOf <==> Mapped(sch, nets, ignored, l)
  {
    if l in p.boardOf { TableIs(sch, owner, nets, ignored, p.boardOf[l], l); }
    if raw :| MapsTo(sch, nets, ignored, raw, l) { TableIs(sch, owner, nets, ignored, raw, l); }
  }

  lemma SubsetOfKeys(nets: seq<SchematicNet>, logical: set<Id>, mapped: set<Id>)
    requires forall l :: l in logical <==> exists s :: s in nets && s.id == l
    ensures (logical <= mapped) <==> forall s :: s in nets ==> s.id in mapped
  {
    if logical <= mapped {
      forall s | s in nets ensures s.id in mapped { assert s.id in logical; }
    }
  }

  lemma AllPaired(sch: Schematic, m: Names, nets: seq<BoardNet>, ignored: set<Id>, p: Pairing)
    requires NamesOk(sch, sch.nets, m) && PairingOk(m.owner, nets, ignored, p)
    ensures (m.logical.Keys <= p.boardOf.Keys) <==> forall s :: s in sch.nets ==> Mapped(sch, nets, ignored, s.id)
  {
    SubsetOfKeys(sch.nets, m.logical.Keys, p.boardOf.Keys);
    forall s | s in sch.nets ensures s.id in p.boardOf.Keys <==> Mapped(sch, nets, ignored, s.id) {
      PairedIs(sch, m.owner, nets, ignored, p, s.id);
    }
  }

  lemma PairedExactly(netIdOf: string -> Id, sch: Schematic, b: Board, ignored: set<Id>, m: Names, p: Pairing)
    requires NamesOk(sch, sch.nets, m) && (p.issues == [] <==> TableClean(netIdOf, m.owner, b.nets, ignored))
    requires p.issues == [] ==> PairingOk(m.owner, b.nets, ignored, p)
    ensures p.issues == [] <==> BoardClean(netIdOf, sch, b.nets, ignored)
    ensures p.issues == [] ==> forall raw, l ::
      MapsTo(sch, b.nets, ignored, raw, l) <==> exists x :: x in p.mappings && x.raw == raw && x.logical == l
    ensures p.issues == [] ==>
      (m.logical.Keys <= p.boardOf.Keys <==> forall s :: s in sch.nets ==> Mapped(sch, b.nets, ignored, s.id))
  {
    TableCleanIs(netIdOf, sch, m.owner, b.nets, ignored);
    if p.issues == [] {
      forall raw, l ensures TableMaps(m.owner, b.nets, ignored, raw, l) <==> MapsTo(sch, b.nets, ignored, raw, l) {
        TableIs(sch, m.owner, b.nets, ignored, raw, l);
      }
      AllPaired(sch, m, b.nets, ignored, p);
    }
  }

  lemma PairedNames(sch: Schematic, m: Names, p: Pairing)
    requires NamesOk(sch, sch.nets, m) && forall x :: x in p.mappings ==> x.logical in m.logical && x.name == m.logical[x.logical]
    ensures forall x :: x in p.mappings ==> NameOf(sch.nets, x.logical, x.name)
  {
  }

  /** No issue is reported exactly when the namespace is clean, and then the mappings are exactly its pairs. */
  method ResolveNamespace(netIdOf: string -> Id, sch: Schematic, b: Board, ignored: set<Id>) returns (mappings: seq<Mapping>, issues: seq<Issue>)
    ensures issues == [] <==> NamespaceClean(netIdOf, sch, b, ignored)
    ensures issues == [] ==> forall raw, l ::
      MapsTo(sch, b.nets, ignored, raw, l) <==> exists x :: x in mappings && x.raw == raw && x.logical == l
    ensures issues == [] ==> forall x :: x in mappings ==> NameOf(sch.nets, x.logical, x.name)
  {
    var m := ReadSchematic(netIdOf, sch);
    var p := ReadBoard(netIdOf, b, ignored, m);
    mappings, issues := p.mappings, m.issues + p.issues;
    if m.issues == [] { PairedExactly(netIdOf, sch, b, ignored, m, p); }
    if m.issues == [] && p.issues == [] { PairedNames(sch, m, p); }
    if !(m.logical.Keys <= p.boardOf.Keys) {
      issues := issues + [NoBoardNet];
    }
  }

  // ---------- No-connect nets ----------

  datatype OpenPin = OpenPin(reference: Id, number: Id, name: string, electricalType: string)

  function OpenPinKey(p: OpenPin): (Id, Id) { (p.reference, p.number) }

  /** The pins of one symbol that carry an explicit no-connect mark. */
  function OpenPinsOf(reference: Id, pins: seq<SymbolPin>, marks: seq<Point>): seq<OpenPin> {
    if pins == [] then []
    else
      var p := pins[|pins| - 1];
      OpenPinsOf(reference, pins[..|pins| - 1], marks) +
      if p.position in marks then [OpenPin(reference, p.number, p.name, p.electricalType)] else []
  }

  function OpenPins(symbols: seq<Symbol>, marks: seq<Point>): seq<OpenPin> {
    if symbols == [] then []
    else
      var s := symbols[|symbols| - 1];
      OpenPins(symbols[..|symbols| - 1], marks) + OpenPinsOf(s.reference, s.pins, marks)
  }

  method CollectOpenPins(sch: Schematic) returns (found: seq<OpenPin>)
    ensures found == OpenPins(sch.symbols, sch.noConnects)
  {
    found := [];
    var i := 0;
    while i < |sch.symbols|
      invariant 0 <= i <= |sch.symbols| && found == OpenPins(sch.symbols[..i], sch.noConnects)
    {
      var s, j := sch.symbols[i], 0;
      var before := found;
      while j < |s.pins|
        invariant 0 <= j <= |s.pins| && found == before + OpenPinsOf(s.reference, s.pins[..j], sch.noConnects)
      {
        assert s.pins[..j + 1][..j] == s.pins[..j];
        var p := s.pins[j];
        if p.position in sch.noConnects {
          found := found + [OpenPin(s.reference, p.number, p.name, p.electricalType)];
        }
        j := j + 1;
      }
      assert s.pins[..j] == s.pins;
      assert sch.symbols[..i + 1][..i] == sch.symbols[..i];
      i := i + 1;
    }
    assert sch.symbols[..i] == sch.symbols;
  }

  /** KiCad's automatic name and pin data for exactly this unconnected pad. */
  predicate PadProves(open: seq<OpenPin>, netName: string, reference: Id, p: BoardPad) {
    match FindBy(open, OpenPinKey, (reference, p.number))
    case None => false
    case Some(pin) =>
      && netName == (if pin.name != "" && pin.name != p.number then "unconnected-(" + reference + "-" + pin.name + "-Pad" + p.number + ")"
                     else "unconnected-(" + reference + "-Pad" + p.number + ")")
      && (if pin.name != "" then p.pinFunction == Some(pin.name) else p.pinFunction == None || p.pinFunction == Some(""))
      && (p.pinType.Some? ==> p.pinType.value == pin.electricalType)
  }

  ghost predicate PadOn(footprints: seq<Footprint>, id: Id, reference: Id, p: BoardPad) {
    p.kind != Unplated && p.netId == Some(id) && exists f :: f in footprints && f.reference == reference && p in f.pads
  }

  ghost predicate Routed(b: Board, id: Id) {
    || (exists s :: s in b.segments && s.netId == id)
    || (exists v :: v in b.vias && v.netId == id)
    || (exists z :: z in b.zones && z.netId == id)
  }

  /** An unrouted net whose every pad is exactly an explicitly unconnected pin. */
  ghost predicate NoConnect(sch: Schematic, b: Board, n: BoardNet) {
    && (exists reference, p :: PadOn(b.footprints, n.id, reference, p))
    && !Routed(b, n.id)
    && (forall reference, p :: PadOn(b.footprints, n.id, reference, p) ==> PadProves(OpenPins(sch.symbols, sch.noConnects), n.name, reference, p))
  }

  datatype Placed = Placed(reference: Id, pad: BoardPad)

  method CollectPads(footprints: seq<Footprint>, id: Id) returns (pads: seq<Placed>)
    ensures forall x :: x in pads <==> PadOn(footprints, id, x.reference, x.pad)
  {
    pads := [];
    var i := 0;
    while i < |footprints|
      invariant 0 <= i <= |footprints|
      invariant forall x :: x in pads <==> PadOn(footprints[..i], id, x.reference, x.pad)
    {
      var f, j := footprints[i], 0;
      var before := pads;
      while j < |f.pads|
        invariant 0 <= j <= |f.pads|
        invariant forall x :: x in pads <==>
          x in before || (x.reference == f.reference && x.pad in f.pads[..j] && x.pad.kind != Unplated && x.pad.netId == Some(id))
      {
        assert f.pads[..j + 1] == f.pads[..j] + [f.pads[j]];
        if f.pads[j].kind != Unplated && f.pads[j].netId == Some(id) {
          pads := pads + [Placed(f.reference, f.pads[j])];
        }
        j := j + 1;
      }
      assert f.pads[..j] == f.pads;
      assert footprints[..i + 1] == footprints[..i] + [f];
      assert forall g :: g in footprints[..i + 1] <==> g in footprints[..i] || g == f;
      i := i + 1;
    }
    assert footprints[..i] == footprints;
  }

  method CheckPads(open: seq<OpenPin>, netName: string, pads: seq<Placed>) returns (valid: bool)
    ensures valid <==> forall x :: x in pads ==> PadProves(open, netName, x.reference, x.pad)
  {
    var i := 0;
    while i < |pads|
      invariant 0 <= i <= |pads| && forall x :: x in pads[..i] ==> PadProves(open, netName, x.reference, x.pad)
    {
      assert pads[..i + 1] == pads[..i] + [pads[i]];
      if !PadProves(open, netName, pads[i].reference, pads[i].pad) {
        return false;
      }
      i := i + 1;
    }
    assert pads[..i] == pads;
    return true;
  }

  /** IDs of nets that copper, vias or zones are drawn on. */
  function RoutedIds(b: Board): set<Id> {
    (set s | s in b.segments :: s.netId) + (set v | v in b.vias :: v.netId) + (set z | z in b.zones :: z.netId)
  }

  lemma CollectedNoConnect(sch: Schematic, b: Board, n: BoardNet, pads: seq<Placed>)
    requires forall x :: x in pads <==> PadOn(b.footprints, n.id, x.reference, x.pad)
    ensures NoConnect(sch, b, n) <==>
      && pads != [] && n.id !in RoutedIds(b)
      && forall x :: x in pads ==> PadProves(OpenPins(sch.symbols, sch.noConnects), n.name, x.reference, x.pad)
  {
    assert Routed(b, n.id) <==> n.id in RoutedIds(b);
    forall reference, p ensures PadOn(b.footprints, n.id, reference, p) <==> Placed(reference, p) in pads { }
    assert pads != [] ==> pads[0] in pads;
  }

  method ProvenNoConnects(sch: Schematic, b: Board) returns (ids: set<Id>)
    ensures forall id :: id in ids <==> exists n :: n in b.nets && n.id == id && NoConnect(sch, b, n)
  {
    var open := CollectOpenPins(sch);
    ids := {};
    var i := 0;
    while i < |b.nets|
      invariant 0 <= i <= |b.nets|
      invariant forall id :: id in ids <==> exists n :: n in b.nets[..i] && n.id == id && NoConnect(sch, b, n)
    {
      var n := b.nets[i];
      var pads := CollectPads(b.footprints, n.id);
      var valid := CheckPads(open, n.name, pads);
      CollectedNoConnect(sch, b, n, pads);
      assert b.nets[..i + 1] == b.nets[..i] + [n];
      assert forall m :: m in b.nets[..i + 1] <==> m in b.nets[..i] || m == n;
      if pads != [] && n.id !in RoutedIds(b) && valid {
        ids := ids + {n.id};
      }
      i := i + 1;
    }
    assert b.nets[..i] == b.nets;
  }

  // ---------- The bijection ----------

  ghost predicate Kept(b: Board, ignored: set<Id>, raw: Id) { raw !in ignored && KnownNet(b, raw) }

  ghost predicate Logical(sch: Schematic, l: Id) { exists s :: s in sch.nets && s.id == l }

  lemma SameNet(b: Board, n: BoardNet, m: BoardNet)
    requires BoardOk(b) && n in b.nets && m in b.nets && n.id == m.id
    ensures n == m
  {
    var i :| 0 <= i < |b.nets| && b.nets[i] == n;
    var j :| 0 <= j < |b.nets| && b.nets[j] == m;
  }

  lemma OneOwner(netIdOf: string -> Id, sch: Schematic, name: string, l: Id, k: Id)
    requires SchematicClean(netIdOf, sch, sch.nets) && Owns(sch, l, name) && Owns(sch, k, name)
    ensures l == k
  {
  }

  /** In a clean namespace the kept raw nets and the schematic nets are in one-to-one correspondence. */
  lemma NamespaceBijection(netIdOf: string -> Id, sch: Schematic, b: Board, ignored: set<Id>)
    requires NamespaceClean(netIdOf, sch, b, ignored) && BoardOk(b)
    ensures forall raw :: Kept(b, ignored, raw) ==> exists l :: Logical(sch, l) && MapsTo(sch, b.nets, ignored, raw, l)
    ensures forall raw, l, k :: MapsTo(sch, b.nets, ignored, raw, l) && MapsTo(sch, b.nets, ignored, raw, k) ==> l == k
    ensures forall raw, other, l :: MapsTo(sch, b.nets, ignored, raw, l) && MapsTo(sch, b.nets, ignored, other, l) ==> raw == other
    ensures forall l :: Logical(sch, l) ==> exists raw :: Kept(b, ignored, raw) && MapsTo(sch, b.nets, ignored, raw, l)
  {
    forall raw | Kept(b, ignored, raw) ensures exists l :: Logical(sch, l) && MapsTo(sch, b.nets, ignored, raw, l) {
      var n :| n in b.nets && n.id == raw;
      var l :| Owns(sch, l, n.name);
      assert MapsTo(sch, b.nets, ignored, raw, l) && Logical(sch, l);
    }
    forall raw, l, k | MapsTo(sch, b.nets, ignored, raw, l) && MapsTo(sch, b.nets, ignored, raw, k) ensures l == k {
      var n :| n in b.nets && n.id == raw && Owns(sch, l, n.name);
      var m :| m in b.nets && m.id == raw && Owns(sch, k, m.name);
      SameNet(b, n, m);
      OneOwner(netIdOf, sch, n.name, l, k);
    }
    forall l | Logical(sch, l) ensures exists raw :: Kept(b, ignored, raw) && MapsTo(sch, b.nets, ignored, raw, l) {
      var s :| s in sch.nets && s.id == l;
      assert Mapped(sch, b.nets, ignored, s.id);
      var raw :| MapsTo(sch, b.nets, ignored, raw, l);
      assert Kept(b, ignored, raw);
    }
  }

  // ---------- The logical board ----------

  function RawId(x: Mapping): Id { x.raw }

  /** The dictionaries read off the mappings. */
  function LogicalOf(mappings: seq<Mapping>, raw: Id): Option<Mapping> { FindBy(mappings, RawId, raw) }

  function MappedNet(mappings: seq<Mapping>, ignored: set<Id>, raw: Option<Id>): Option<Id> {
    if raw.None? || raw.value in ignored || LogicalOf(mappings, raw.value).None? then None
    else Some(LogicalOf(mappings, raw.value).value.logical)
  }

  /** Pads the logical view keeps: all but source-only apertures. */
  predicate KeptPad(p: BoardPad) { p.kind == Unplated || p.number != "" }

  /** Every dictionary lookup of the view finds its key. */
  predicate LookupsDefined(b: Board, mappings: seq<Mapping>, ignored: set<Id>) {
    && (forall n :: n in b.nets && n.id !in ignored ==> LogicalOf(mappings, n.id).Some?)
    && (forall f, p :: f in b.footprints && p in f.pads ==>
          KeptPad(p) && p.netId.Some? && p.netId.value !in ignored ==> LogicalOf(mappings, p.netId.value).Some?)
    && (forall s :: s in b.segments ==> LogicalOf(mappings, s.netId).Some?)
    && (forall v :: v in b.vias ==> LogicalOf(mappings, v.netId).Some?)
    && (forall z :: z in b.zones ==> LogicalOf(mappings, z.netId).Some?)
  }

  /** The mappings are exactly the pairs of the namespace. */
  ghost predicate Exact(mappings: seq<Mapping>, sch: Schematic, b: Board, ignored: set<Id>) {
    forall raw, l :: MapsTo(sch, b.nets, ignored, raw, l) <==> exists x :: x in mappings && x.raw == raw && x.logical == l
  }

  ghost predicate ExactNoConnects(sch: Schematic, b: Board, ignored: set<Id>) {
    forall id :: id in ignored <==> exists n :: n in b.nets && n.id == id && NoConnect(sch, b, n)
  }

  /** A lookup finds the one logical net a raw net maps to. */
  lemma LookupIs(netIdOf: string -> Id, sch: Schematic, b: Board, ignored: set<Id>, mappings: seq<Mapping>, raw: Id, l: Id)
    requires NamespaceClean(netIdOf, sch, b, ignored) && BoardOk(b) && Exact(mappings, sch, b, ignored)
    ensures MapsTo(sch, b.nets, ignored, raw, l) <==> LogicalOf(mappings, raw).Some? && LogicalOf(mappings, raw).value.logical == l
  {
    NamespaceBijection(netIdOf, sch, b, ignored);
    var r := LogicalOf(mappings, raw);
    if r.Some? {
      assert r.value in mappings && r.value.raw == raw;
      assert MapsTo(sch, b.nets, ignored, raw, r.value.logical);
    }
  }

  lemma KeptLooksUp(netIdOf: string -> Id, sch: Schematic, b: Board, ignored: set<Id>, mappings: seq<Mapping>, raw: Id)
    requires NamespaceClean(netIdOf, sch, b, ignored) && BoardOk(b) && Exact(mappings, sch, b, ignored)
    ensures Kept(b, ignored, raw) <==> LogicalOf(mappings, raw).Some?
  {
    NamespaceBijection(netIdOf, sch, b, ignored);
    if Kept(b, ignored, raw) {
      var l :| MapsTo(sch, b.nets, ignored, raw, l);
      LookupIs(netIdOf, sch, b, ignored, mappings, raw, l);
    }
    if LogicalOf(mappings, raw).Some? {
      LookupIs(netIdOf, sch, b, ignored, mappings, raw, LogicalOf(mappings, raw).value.logical);
    }
  }

  /** Copper is never drawn on a no-connect net. */
  lemma RoutedIsKept(sch: Schematic, b: Board, ignored: set<Id>, id: Id)
    requires BoardOk(b) && ExactNoConnects(sch, b, ignored) && Routed(b, id)
    ensures Kept(b, ignored, id)
  {
    assert KnownNet(b, id);
  }

  /** When nothing is reported, no lookup of the logical view fails. */
  lemma LookupsAlwaysDefined(netIdOf: string -> Id, sch: Schematic, b: Board, ignored: set<Id>, mappings: seq<Mapping>)
    requires NamespaceClean(netIdOf, sch, b, ignored) && BoardOk(b)
    requires Exact(mappings, sch, b, ignored) && ExactNoConnects(sch, b, ignored)
    ensures LookupsDefined(b, mappings, ignored)
  {
    forall raw ensures Kept(b, ignored, raw) <==> LogicalOf(mappings, raw).Some? {
      KeptLooksUp(netIdOf, sch, b, ignored, mappings, raw);
    }
    forall raw | Routed(b, raw) ensures Kept(b, ignored, raw) { RoutedIsKept(sch, b, ignored, raw); }
    forall n | n in b.nets && n.id !in ignored ensures LogicalOf(mappings, n.id).Some? { assert Kept(b, ignored, n.id); }
    forall f, p | f in b.footprints && p in f.pads && p.netId.Some? && p.netId.value !in ignored
      ensures LogicalOf(mappings, p.netId.value).Some?
    {
      assert Kept(b, ignored, p.netId.value);
    }
    forall s | s in b.segments ensures LogicalOf(mappings, s.netId).Some? { assert Routed(b, s.netId); }
    forall v | v in b.vias ensures LogicalOf(mappings, v.netId).Some? { assert Routed(b, v.netId); }
    forall z | z in b.zones ensures LogicalOf(mappings, z.netId).Some? { assert Routed(b, z.netId); }
  }

  /** Two objects are on one logical net exactly when they were on one kept raw net. */
  lemma ConnectivityKept(netIdOf: string -> Id, sch: Schematic, b: Board, ignored: set<Id>, mappings: seq<Mapping>, x: Option<Id>, y: Option<Id>)
    requires NamespaceClean(netIdOf, sch, b, ignored) && BoardOk(b) && Exact(mappings, sch, b, ignored)
    requires (x.Some? ==> KnownNet(b, x.value)) && (y.Some? ==> KnownNet(b, y.value))
    ensures MappedNet(mappings, ignored, x).Some? && MappedNet(mappings, ignored, x) == MappedNet(mappings, ignored, y)
            <==> x.Some? && x == y && x.value !in ignored
  {
    NamespaceBijection(netIdOf, sch, b, ignored);
    if x.Some? { KeptLooksUp(netIdOf, sch, b, ignored, mappings, x.value); }
    var p, q := MappedNet(mappings, ignored, x), MappedNet(mappings, ignored, y);
    if p.Some? && p == q {
      LookupIs(netIdOf, sch, b, ignored, mappings, x.value, p.value);
      LookupIs(netIdOf, sch, b, ignored, mappings, y.value, p.value);
    }
  }

  // ---------- Building the view ----------

  function ViewPads(pads: seq<BoardPad>, mappings: seq<Mapping>, ignored: set<Id>): seq<BoardPad> {
    if pads == [] then []
    else
      (if KeptPad(pads[0]) then [pads[0].(netId := MappedNet(mappings, ignored, pads[0].netId))] else []) +
      ViewPads(pads[1..], mappings, ignored)
  }

  function ViewNets(nets: seq<BoardNet>, mappings: seq<Mapping>, ignored: set<Id>): seq<BoardNet>
    requires forall n :: n in nets && n.id !in ignored ==> LogicalOf(mappings, n.id).Some?
  {
    if nets == [] then []
    else
      (if nets[0].id in ignored then []
       else [BoardNet(LogicalOf(mappings, nets[0].id).value.logical, LogicalOf(mappings, nets[0].id).value.name)]) +
      ViewNets(nets[1..], mappings, ignored)
  }

  /** The board with every net replaced by its logical net; a missing key is a failure. */
  function LogicalBoard(b: Board, mappings: seq<Mapping>, ignored: set<Id>): Option<Board> {
    if !LookupsDefined(b, mappings, ignored) then None
    else
      Some(Board(
        ViewNets(b.nets, mappings, ignored),
        MapSeq(b.footprints, (f: Footprint) => f.(pads := ViewPads(f.pads, mappings, ignored))),
        seq(|b.segments|, i requires 0 <= i < |b.segments| => b.segments[i].(netId := LogicalOf(mappings, b.segments[i].netId).value.logical)),
        seq(|b.vias|, i requires 0 <= i < |b.vias| => b.vias[i].(netId := LogicalOf(mappings, b.vias[i].netId).value.logical)),
        seq(|b.zones|, i requires 0 <= i < |b.zones| =>
          Pour(b.zones[i].id, LogicalOf(mappings, b.zones[i].netId).value.logical, LogicalOf(mappings, b.zones[i].netId).value.name))))
  }

  lemma {:induction false} ViewNetsExact(nets: seq<BoardNet>, mappings: seq<Mapping>, ignored: set<Id>, l: Id)
    requires forall n :: n in nets && n.id !in ignored ==> LogicalOf(mappings, n.id).Some?
    ensures (exists m :: m in ViewNets(nets, mappings, ignored) && m.id == l) <==>
            exists n :: n in nets && n.id !in ignored && LogicalOf(mappings, n.id).value.logical == l
  {
    if nets != [] {
      ViewNetsExact(nets[1..], mappings, ignored, l);
      assert nets == [nets[0]] + nets[1..];
    }
  }

  /** The logical view exists and its nets are exactly the schematic's nets. */
  lemma LogicalBoardHasSchematicNets(netIdOf: string -> Id, sch: Schematic, b: Board, ignored: set<Id>, mappings: seq<Mapping>, l: Id)
    requires NamespaceClean(netIdOf, sch, b, ignored) && BoardOk(b)
    requires Exact(mappings, sch, b, ignored) && ExactNoConnects(sch, b, ignored)
    ensures LogicalBoard(b, mappings, ignored).Some?
    ensures KnownNet(LogicalBoard(b, mappings, ignored).value, l) <==> Logical(sch, l)
  {
    LookupsAlwaysDefined(netIdOf, sch, b, ignored, mappings);
    NamespaceBijection(netIdOf, sch, b, ignored);
    ViewNetsExact(b.nets, mappings, ignored, l);
    if Logical(sch, l) {
      var raw :| Kept(b, ignored, raw) && MapsTo(sch, b.nets, ignored, raw, l);
      LookupIs(netIdOf, sch, b, ignored, mappings, raw, l);
    }
    if n :| n in b.nets && n.id !in ignored && LogicalOf(mappings, n.id).value.logical == l {
      LookupIs(netIdOf, sch, b, ignored, mappings, n.id, l);
    }
  }

  // ---------- What the view shows ----------

  lemma {:induction false} OpenPinsOfExactly(reference: Id, pins: seq<SymbolPin>, marks: seq<Point>, x: OpenPin)
    ensures x in OpenPinsOf(reference, pins, marks) <==>
      exists p :: p in pins && p.position in marks && x == OpenPin(reference, p.number, p.name, p.electricalType)
  {
    if pins != [] {
      var n := |pins| - 1;
      OpenPinsOfExactly(reference, pins[..n], marks, x);
      assert pins == pins[..n] + [pins[n]];
    }
  }

  /** The open pins are exactly the pins of the symbols that sit on a no-connect mark. */
  lemma {:induction false} OpenPinsExactly(symbols: seq<Symbol>, marks: seq<Point>, x: OpenPin)
    ensures x in OpenPins(symbols, marks) <==>
      exists s, p :: s in symbols && p in s.pins && p.position in marks && x == OpenPin(s.reference, p.number, p.name, p.electricalType)
  {
    if symbols != [] {
      var n := |symbols| - 1;
      OpenPinsExactly(symbols[..n], marks, x);
      OpenPinsOfExactly(symbols[n].reference, symbols[n].pins, marks, x);
      assert symbols == symbols[..n] + [symbols[n]];
    }
  }

  /** A net answers to its own name, and to that name after a slash exactly if all its labels are local. */
  lemma AliasesExactly(sch: Schematic, s: SchematicNet, a: string)
    ensures a in Aliases(sch, s) <==>
      && s.name.Some?
      && (a == s.name.value
          || (a == "/" + s.name.value && s.labelIds != []
              && forall x :: x in s.labelIds ==> FindBy(sch.labels, LabelId, x).Some? && FindBy(sch.labels, LabelId, x).value.kind == LocalLabel))
  {
  }

  /** The object keeps its place and its ID, and lies on the logical net of its own raw net. */
  ghost predicate CopperView(sch: Schematic, b: Board, ignored: set<Id>, cs: seq<Copper>, ds: seq<Copper>) {
    && |ds| == |cs|
    && forall i :: 0 <= i < |cs| ==> ds[i].id == cs[i].id && MapsTo(sch, b.nets, ignored, cs[i].netId, ds[i].netId)
  }

  ghost predicate PourView(sch: Schematic, b: Board, ignored: set<Id>, cs: seq<Pour>, ds: seq<Pour>) {
    && |ds| == |cs|
    && forall i :: 0 <= i < |cs| ==>
         ds[i].id == cs[i].id && MapsTo(sch, b.nets, ignored, cs[i].netId, ds[i].netId) && NameOf(sch.nets, ds[i].netId, ds[i].netName)
  }

  /** Only the net of a pad may change: to the logical net if its raw net is kept, and to none otherwise. */
  ghost predicate PadView(sch: Schematic, b: Board, ignored: set<Id>, p: BoardPad, q: BoardPad) {
    && q == p.(netId := q.netId)
    && (q.netId.Some? <==> p.netId.Some? && p.netId.value !in ignored)
    && (q.netId.Some? ==> MapsTo(sch, b.nets, ignored, p.netId.value, q.netId.value))
  }

  /** The pads with a number and the unplated holes, in order. */
  ghost predicate PadsView(sch: Schematic, b: Board, ignored: set<Id>, ps: seq<BoardPad>, qs: seq<BoardPad>) {
    if ps == [] then qs == []
    else if ps[0].kind == Unplated || ps[0].number != "" then
      qs != [] && PadView(sch, b, ignored, ps[0], qs[0]) && PadsView(sch, b, ignored, ps[1..], qs[1..])
    else PadsView(sch, b, ignored, ps[1..], qs)
  }

  /** The kept nets in order, each under the ID and a name of its logical net. */
  ghost predicate NetsView(sch: Schematic, b: Board, ignored: set<Id>, ns: seq<BoardNet>, ms: seq<BoardNet>) {
    if ns == [] then ms == []
    else if ns[0].id in ignored then NetsView(sch, b, ignored, ns[1..], ms)
    else
      && ms != [] && MapsTo(sch, b.nets, ignored, ns[0].id, ms[0].id) && NameOf(sch.nets, ms[0].id, ms[0].name)
      && NetsView(sch, b, ignored, ns[1..], ms[1..])
  }

  ghost predicate FootprintsView(sch: Schematic, b: Board, ignored: set<Id>, fs: seq<Footprint>, ds: seq<Footprint>) {
    && |ds| == |fs|
    && forall i :: 0 <= i < |fs| ==> ds[i].reference == fs[i].reference && PadsView(sch, b, ignored, fs[i].pads, ds[i].pads)
  }

  /** `d` shows the board `b` on the schematic's nets, object by object. */
  ghost predicate Shows(sch: Schematic, b: Board, ignored: set<Id>, d: Board) {
    && NetsView(sch, b, ignored, b.nets, d.nets) && FootprintsView(sch, b, ignored, b.footprints, d.footprints)
    && CopperView(sch, b, ignored, b.segments, d.segments) && CopperView(sch, b, ignored, b.vias, d.vias)
    && PourView(sch, b, ignored, b.zones, d.zones)
  }

  /** Every lookup leads to the logical net of the key, under one of its names. */
  ghost predicate LooksUp(sch: Schematic, b: Board, ignored: set<Id>, mappings: seq<Mapping>) {
    forall raw :: LogicalOf(mappings, raw).Some? ==>
      MapsTo(sch, b.nets, ignored, raw, LogicalOf(mappings, raw).value.logical)
      && NameOf(sch.nets, LogicalOf(mappings, raw).value.logical, LogicalOf(mappings, raw).value.name)
  }

  lemma {:induction false} ViewPadsShow(sch: Schematic, b: Board, ignored: set<Id>, mappings: seq<Mapping>, pads: seq<BoardPad>)
    requires LooksUp(sch, b, ignored, mappings)
    requires forall p :: p in pads && KeptPad(p) && p.netId.Some? && p.netId.value !in ignored ==> LogicalOf(mappings, p.netId.value).Some?
    ensures PadsView(sch, b, ignored, pads, ViewPads(pads, mappings, ignored))
  {
    if pads != [] {
      assert pads[0] in pads && forall p :: p in pads[1..] ==> p in pads;
      ViewPadsShow(sch, b, ignored, mappings, pads[1..]);
      var rest, view := ViewPads(pads[1..], mappings, ignored), ViewPads(pads, mappings, ignored);
      assert KeptPad(pads[0]) ==> view[1..] == rest;
      assert !KeptPad(pads[0]) ==> view == rest;
    }
  }

  lemma {:induction false} ViewNetsShow(sch: Schematic, b: Board, ignored: set<Id>, mappings: seq<Mapping>, nets: seq<BoardNet>)
    requires LooksUp(sch, b, ignored, mappings)
    requires forall n :: n in nets && n.id !in ignored ==> LogicalOf(mappings, n.id).Some?
    ensures NetsView(sch, b, ignored, nets, ViewNets(nets, mappings, ignored))
  {
    if nets != [] {
      assert forall n :: n in nets[1..] ==> n in nets;
      ViewNetsShow(sch, b, ignored, mappings, nets[1..]);
      var rest, view := ViewNets(nets[1..], mappings, ignored), ViewNets(nets, mappings, ignored);
      assert nets[0].id !in ignored ==> view[1..] == rest;
      assert nets[0].id in ignored ==> view == rest;
    }
  }

  lemma DefinedShows(sch: Schematic, b: Board, ignored: set<Id>, mappings: seq<Mapping>)
    requires LooksUp(sch, b, ignored, mappings) && LookupsDefined(b, mappings, ignored)
    ensures LogicalBoard(b, mappings, ignored).Some? && Shows(sch, b, ignored, LogicalBoard(b, mappings, ignored).value)
  {
    ViewNetsShow(sch, b, ignored, mappings, b.nets);
    forall i | 0 <= i < |b.footprints| ensures PadsView(sch, b, ignored, b.footprints[i].pads, ViewPads(b.footprints[i].pads, mappings, ignored)) {
      assert b.footprints[i] in b.footprints;
      ViewPadsShow(sch, b, ignored, mappings, b.footprints[i].pads);
    }
  }

  lemma ExactLooksUp(netIdOf: string -> Id, sch: Schematic, b: Board, ignored: set<Id>, mappings: seq<Mapping>)
    requires NamespaceClean(netIdOf, sch, b, ignored) && BoardOk(b) && Exact(mappings, sch, b, ignored)
    requires forall x :: x in mappings ==> NameOf(sch.nets, x.logical, x.name)
    ensures LooksUp(sch, b, ignored, mappings)
  {
    forall raw | LogicalOf(mappings, raw).Some?
      ensures MapsTo(sch, b.nets, ignored, raw, LogicalOf(mappings, raw).value.logical)
    {
      LookupIs(netIdOf, sch, b, ignored, mappings, raw, LogicalOf(mappings, raw).value.logical);
    }
  }

  /**
   When the resolver reports nothing, the logical board exists and shows every track segment, via, zone,
   footprint and kept pad of the board, in order, on the one schematic net its own raw net maps to.
   */
  lemma LogicalBoardShows(netIdOf: string -> Id, sch: Schematic, b: Board, ignored: set<Id>, mappings: seq<Mapping>)
    requires NamespaceClean(netIdOf, sch, b, ignored) && BoardOk(b)
    requires Exact(mappings, sch, b, ignored) && ExactNoConnects(sch, b, ignored)
    requires forall x :: x in mappings ==> NameOf(sch.nets, x.logical, x.name)
    ensures LogicalBoard(b, mappings, ignored).Some? && Shows(sch, b, ignored, LogicalBoard(b, mappings, ignored).value)
  {
    LookupsAlwaysDefined(netIdOf, sch, b, ignored, mappings);
    ExactLooksUp(netIdOf, sch, b, ignored, mappings);
    DefinedShows(sch, b, ignored, mappings);
  }

  // ---------- Connectivity of the built board ----------

  /** One object of the board, with its net before and after. */
  ghost predicate Object(b: Board, d: Board, raw: Option<Id>, net: Option<Id>) {
    || (exists i :: 0 <= i < |b.segments| && i < |d.segments| && raw == Some(b.segments[i].netId) && net == Some(d.segments[i].netId))
    || (exists i :: 0 <= i < |b.vias| && i < |d.vias| && raw == Some(b.vias[i].netId) && net == Some(d.vias[i].netId))
    || (exists i :: 0 <= i < |b.zones| && i < |d.zones| && raw == Some(b.zones[i].netId) && net == Some(d.zones[i].netId))
    || PadObject(b, d, raw, net)
  }

  /** A pad is recognised by its ID within its footprint. */
  ghost predicate PadObject(b: Board, d: Board, raw: Option<Id>, net: Option<Id>) {
    exists i, p, q :: 0 <= i < |b.footprints| && i < |d.footprints| && p in b.footprints[i].pads && q in d.footprints[i].pads
      && q.id == p.id && raw == p.netId && net == q.netId
  }

  lemma {:induction false} PadsViewFinds(sch: Schematic, b: Board, ignored: set<Id>, ps: seq<BoardPad>, qs: seq<BoardPad>, q: BoardPad)
    requires PadsView(sch, b, ignored, ps, qs) && q in qs
    ensures exists p :: p in ps && PadView(sch, b, ignored, p, q)
    decreases |ps|
  {
    if ps[0].kind == Unplated || ps[0].number != "" {
      if q != qs[0] {
        assert q in qs[1..];
        PadsViewFinds(sch, b, ignored, ps[1..], qs[1..], q);
      }
    } else {
      PadsViewFinds(sch, b, ignored, ps[1..], qs, q);
    }
  }

  lemma SamePad(pads: seq<BoardPad>, p: BoardPad, q: BoardPad)
    requires DistinctPads(pads) && p in pads && q in pads && p.id == q.id
    ensures p == q
  {
    var i :| 0 <= i < |pads| && pads[i] == p;
    var j :| 0 <= j < |pads| && pads[j] == q;
  }

  lemma PadObjectMaps(sch: Schematic, b: Board, ignored: set<Id>, d: Board, raw: Option<Id>, net: Option<Id>)
    requires BoardOk(b) && FootprintsView(sch, b, ignored, b.footprints, d.footprints) && PadObject(b, d, raw, net)
    ensures net.Some? <==> raw.Some? && raw.value !in ignored
    ensures net.Some? ==> MapsTo(sch, b.nets, ignored, raw.value, net.value)
  {
    var i, p, q :| 0 <= i < |b.footprints| && i < |d.footprints| && p in b.footprints[i].pads && q in d.footprints[i].pads
      && q.id == p.id && raw == p.netId && net == q.netId;
    PadsViewFinds(sch, b, ignored, b.footprints[i].pads, d.footprints[i].pads, q);
    var o :| o in b.footprints[i].pads && PadView(sch, b, ignored, o, q);
    assert b.footprints[i] in b.footprints;
    SamePad(b.footprints[i].pads, p, o);
  }

  lemma ObjectMaps(sch: Schematic, b: Board, ignored: set<Id>, d: Board, raw: Option<Id>, net: Option<Id>)
    requires BoardOk(b) && Shows(sch, b, ignored, d) && Object(b, d, raw, net)
    ensures net.Some? <==> raw.Some? && raw.value !in ignored
    ensures net.Some? ==> MapsTo(sch, b.nets, ignored, raw.value, net.value)
  {
    if PadObject(b, d, raw, net) { PadObjectMaps(sch, b, ignored, d, raw, net); }
  }

  /** Two objects of the built board share a net exactly when they shared a kept raw net of the source board. */
  lemma BuiltConnectivity(netIdOf: string -> Id, sch: Schematic, b: Board, ignored: set<Id>, d: Board,
                          raw: Option<Id>, net: Option<Id>, raw': Option<Id>, net': Option<Id>)
    requires NamespaceClean(netIdOf, sch, b, ignored) && BoardOk(b) && Shows(sch, b, ignored, d)
    requires Object(b, d, raw, net) && Object(b, d, raw', net')
    ensures net.Some? && net == net' <==> raw.Some? && raw == raw' && raw.value !in ignored
  {
    ObjectMaps(sch, b, ignored, d, raw, net);
    ObjectMaps(sch, b, ignored, d, raw', net');
    NamespaceBijection(netIdOf, sch, b, ignored);
  }
}
