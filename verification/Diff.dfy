/**
 Semantic diff of a staged transaction (backend/design_kernel/engine.py:740-793): which labelled
 objects were added, removed or modified.  The meaning is given by looking single objects up in
 either graph; the loops are proved to report exactly that.
 */
module Diff {
  import opened Lex
  import opened Sorting
  import opened Ring
  import opened Graph
  import opened Dictionary
  import opened Commands
  import opened Fold
  import opened Parts
  import opened Digests
  import opened Kernel
  import opened KernelRuns

  // ---------- Objects and labels ----------

  datatype Kind =
    | OfComponent | OfNet | OfPlacement | OfTrack | OfPad | OfHole | OfVia | OfZone | OfWire | OfJunction | OfLayer | OfOutline

  const KINDS: seq<Kind> := [
    OfComponent, OfNet, OfPlacement, OfTrack, OfPad, OfHole, OfVia, OfZone, OfWire, OfJunction, OfLayer, OfOutline]

  datatype Item =
    | AComponent(component: Component) | ANet(net: Net) | APlacement(placement: Placement) | ATrack(track: Track)
    | APad(pad: Pad) | AHole(hole: Hole) | AVia(via: Via) | AZone(zone: Zone)
    | AWire(wire: Wire) | AJunction(junction: Junction) | ALayer(layer: string) | AnOutline(outline: Ring)

  function Prefix(k: Kind): string {
    match k
    case OfComponent => "component"
    case OfNet => "net"
    case OfPlacement => "placement"
    case OfTrack => "track"
    case OfPad => "pad"
    case OfHole => "hole"
    case OfVia => "via"
    case OfZone => "zone"
    case OfWire => "schematic-wire"
    case OfJunction => "schematic-junction"
    case OfLayer => "layer"
    case OfOutline => "board"
  }

  const OUTLINE_ID := "outline"

  function Label(k: Kind, id: Id): string { Prefix(k) + ":" + id }

  lemma {:induction false} SplitAtColon(p: string, q: string, x: string, y: string)
    requires ':' !in p && ':' !in q && p + ":" + x == q + ":" + y
    ensures p == q && x == y
  {
    var s := p + ":" + x;
    assert s[|p|] == ':' && (q + ":" + y)[|q|] == ':';
    assert forall i :: 0 <= i < |p| ==> s[i] == p[i] && p[i] in p;
    assert forall i :: 0 <= i < |q| ==> s[i] == q[i] && q[i] in q;
    assert |p| == |q|;
    assert p == s[..|p|] && q == s[..|q|];
    assert x == s[|p| + 1..] && y == s[|q| + 1..];
  }

  lemma PrefixesDiffer(k: Kind, l: Kind)
    ensures ':' !in Prefix(k)
    ensures Prefix(k) == Prefix(l) ==> k == l
  {
    var p, q := Prefix(k), Prefix(l);
    assert |p| >= 3 && |q| >= 3 && (p[0] == q[0] && p[1] == q[1] ==> p == q || |p| != |q|);
  }

  /** A label names one object. */
  lemma LabelsDiffer(k: Kind, x: Id, l: Kind, y: Id)
    ensures Label(k, x) == Label(l, y) <==> k == l && x == y
  {
    PrefixesDiffer(k, l);
    PrefixesDiffer(l, k);
    if Label(k, x) == Label(l, y) {
      SplitAtColon(Prefix(k), Prefix(l), x, y);
    }
  }

  // ---------- Lookups ----------

  function ComponentId(c: Component): Id { c.id }
  function NetId(n: Net): Id { n.id }
  function PlacementId(p: Placement): Id { p.componentId }
  function TrackId(t: Track): Id { t.id }
  function PadId(p: Pad): Id { p.id }
  function HoleId(h: Hole): Id { h.id }
  function ViaId(v: Via): Id { v.id }
  function ZoneId(z: Zone): Id { z.id }
  function WireId(w: Wire): Id { w.id }
  function JunctionId(j: Junction): Id { j.id }
  function LayerId(l: string): Id { l }

  function ComponentItem(c: Component): Item { AComponent(c) }
  function NetItem(n: Net): Item { ANet(n) }
  function PlacementItem(p: Placement): Item { APlacement(p) }
  function TrackItem(t: Track): Item { ATrack(t) }
  function PadItem(p: Pad): Item { APad(p) }
  function HoleItem(h: Hole): Item { AHole(h) }
  function ViaItem(v: Via): Item { AVia(v) }
  function ZoneItem(z: Zone): Item { AZone(z) }
  function WireItem(w: Wire): Item { AWire(w) }
  function JunctionItem(j: Junction): Item { AJunction(j) }
  function LayerItem(l: string): Item { ALayer(l) }

  function Wrap<T>(r: Option<T>, item: T -> Item): Option<Item> {
    if r.None? then None else Some(item(r.value))
  }

  function Find(g: Graph, k: Kind, x: Id): Option<Item> {
    match k
    case OfComponent => Wrap(FindBy(g.components, ComponentId, x), ComponentItem)
    case OfNet => Wrap(FindBy(g.nets, NetId, x), NetItem)
    case OfPlacement => Wrap(FindBy(g.placements, PlacementId, x), PlacementItem)
    case OfTrack => Wrap(FindBy(g.tracks, TrackId, x), TrackItem)
    case OfPad => Wrap(FindBy(g.pads, PadId, x), PadItem)
    case OfHole => Wrap(FindBy(g.holes, HoleId, x), HoleItem)
    case OfVia => Wrap(FindBy(g.vias, ViaId, x), ViaItem)
    case OfZone => Wrap(FindBy(g.zones, ZoneId, x), ZoneItem)
    case OfWire => Wrap(FindBy(g.wires, WireId, x), WireItem)
    case OfJunction => Wrap(FindBy(g.junctions, JunctionId, x), JunctionItem)
    case OfLayer => Wrap(FindBy(g.layers, LayerId, x), LayerItem)
    case OfOutline => if x == OUTLINE_ID && g.outline != [] then Some(AnOutline(g.outline)) else None
  }

  datatype Status = Same | Added | Removed | Modified

  /** What happened to one object. */
  function StatusOf<T(==)>(before: Option<T>, after: Option<T>): Status {
    if before == after then Same else if before.None? then Added else if after.None? then Removed else Modified
  }

  /** Only in the staged graph: added.  Only in the base graph: removed.  In both but different: modified. */
  lemma StatusExactly<T>(before: Option<T>, after: Option<T>)
    ensures StatusOf(before, after) == Added <==> before.None? && after.Some?
    ensures StatusOf(before, after) == Removed <==> before.Some? && after.None?
    ensures StatusOf(before, after) == Modified <==> before.Some? && after.Some? && before.value != after.value
  {
  }

  /** The labels as they are written. */
  lemma LabelTexts(x: Id)
    ensures Label(OfComponent, x) == "component:" + x && Label(OfNet, x) == "net:" + x && Label(OfPlacement, x) == "placement:" + x
    ensures Label(OfTrack, x) == "track:" + x && Label(OfPad, x) == "pad:" + x && Label(OfHole, x) == "hole:" + x
    ensures Label(OfVia, x) == "via:" + x && Label(OfZone, x) == "zone:" + x && Label(OfLayer, x) == "layer:" + x
    ensures Label(OfWire, x) == "schematic-wire:" + x && Label(OfJunction, x) == "schematic-junction:" + x
    ensures Label(OfOutline, OUTLINE_ID) == "board:outline"
  {
  }

  // ---------- The loops ----------

  datatype Changes = Changes(added: seq<string>, removed: seq<string>, modified: seq<string>)

  function ListOf(c: Changes, s: Status): seq<string> {
    match s
    case Same => []
    case Added => c.added
    case Removed => c.removed
    case Modified => c.modified
  }

  function LabelKey(l: string): Key { Codes(l) }

  /** The label list of status `s` names exactly the objects of these kinds with that status. */
  ghost predicate Reports(c: Changes, s: Status, kinds: seq<Kind>, base: Graph, staged: Graph) {
    && (forall l :: l in ListOf(c, s) ==> exists k, x :: k in kinds && l == Label(k, x) && StatusOf(Find(base, k, x), Find(staged, k, x)) == s)
    && (forall k, x :: k in kinds && StatusOf(Find(base, k, x), Find(staged, k, x)) == s ==> Label(k, x) in ListOf(c, s))
  }

  method LabelAll(k: Kind, ids: set<Id>) returns (labels: seq<string>)
    ensures UniqueKeys(labels, LabelKey)
    ensures forall l :: l in labels <==> exists x :: x in ids && l == Label(k, x)
  {
    labels := [];
    var rest := ids;
    while rest != {}
      invariant rest <= ids && UniqueKeys(labels, LabelKey)
      invariant forall l :: l in labels ==> exists x :: x in ids - rest && l == Label(k, x)
      invariant forall x :: x in ids - rest ==> Label(k, x) in labels
      decreases rest
    {
      var x :| x in rest;
      forall i | 0 <= i < |labels| ensures LabelKey(labels[i]) != LabelKey(Label(k, x)) {
        assert labels[i] in labels;
        var y :| y in ids - rest && labels[i] == Label(k, y);
        LabelsDiffer(k, x, k, y);
        if LabelKey(labels[i]) == LabelKey(Label(k, x)) { CodesInjective(labels[i], Label(k, x)); }
      }
      labels := labels + [Label(k, x)];
      rest := rest - {x};
    }
  }

  /** Labels of one collection. */
  method DiffItems<T(==, !new)>(k: Kind, before: seq<T>, after: seq<T>, id: T -> Id) returns (c: Changes)
    ensures forall s :: s != Same ==> UniqueKeys(ListOf(c, s), LabelKey)
    ensures forall s, l :: s != Same ==>
      (l in ListOf(c, s) <==> exists x :: l == Label(k, x) && StatusOf(FindBy(before, id, x), FindBy(after, id, x)) == s)
  {
    var old' := IndexItems(before, id);
    var new' := IndexItems(after, id);
    var added := LabelAll(k, new'.Keys - old'.Keys);
    var removed := LabelAll(k, old'.Keys - new'.Keys);
    var modified := LabelAll(k, set x | x in old'.Keys && x in new' && old'[x] != new'[x]);
    c := Changes(added, removed, modified);
    forall x
      ensures StatusOf(FindBy(before, id, x), FindBy(after, id, x)) ==
        StatusOf(if x in old' then Some(old'[x]) else None, if x in new' then Some(new'[x]) else None) { }
  }

  /** Labels of one kind of object. */
  ghost predicate KindReported(c: Changes, k: Kind, base: Graph, staged: Graph) {
    && (forall s :: s != Same ==> UniqueKeys(ListOf(c, s), LabelKey))
    && (forall s, l :: s != Same ==>
          (l in ListOf(c, s) <==> exists x :: l == Label(k, x) && StatusOf(Find(base, k, x), Find(staged, k, x)) == s))
  }

  /** An outline is one optional object. */
  method DiffOutline(base: Ring, staged: Ring) returns (c: Changes)
    ensures var l := Label(OfOutline, OUTLINE_ID);
            c == if base == [] && staged != [] then Changes([l], [], [])
                 else if base != [] && staged == [] then Changes([], [l], [])
                 else if base != staged then Changes([], [], [l])
                 else Changes([], [], [])
  {
    var l := Label(OfOutline, OUTLINE_ID);
    if base == [] && staged != [] {
      return Changes([l], [], []);
    } else if base != [] && staged == [] {
      return Changes([], [l], []);
    } else if base != staged {
      return Changes([], [], [l]);
    }
    return Changes([], [], []);
  }

  method DiffCircuitKind(k: Kind, base: Graph, staged: Graph) returns (c: Changes)
    requires k == OfComponent || k == OfNet || k == OfPlacement || k == OfWire || k == OfJunction
    ensures KindReported(c, k, base, staged)
  {
    match k
    case OfComponent => c := DiffItems(k, base.components, staged.components, ComponentId);
    case OfNet => c := DiffItems(k, base.nets, staged.nets, NetId);
    case OfPlacement => c := DiffItems(k, base.placements, staged.placements, PlacementId);
    case OfWire => c := DiffItems(k, base.wires, staged.wires, WireId);
    case OfJunction => c := DiffItems(k, base.junctions, staged.junctions, JunctionId);
  }

  method DiffBoardKind(k: Kind, base: Graph, staged: Graph) returns (c: Changes)
    requires k == OfTrack || k == OfPad || k == OfHole || k == OfVia || k == OfZone
    ensures KindReported(c, k, base, staged)
  {
    match k
    case OfTrack => c := DiffItems(k, base.tracks, staged.tracks, TrackId);
    case OfPad => c := DiffItems(k, base.pads, staged.pads, PadId);
    case OfHole => c := DiffItems(k, base.holes, staged.holes, HoleId);
    case OfVia => c := DiffItems(k, base.vias, staged.vias, ViaId);
    case OfZone => c := DiffItems(k, base.zones, staged.zones, ZoneId);
  }

  method DiffFrameKind(k: Kind, base: Graph, staged: Graph) returns (c: Changes)
    requires k == OfLayer || k == OfOutline
    ensures KindReported(c, k, base, staged)
  {
    match k
    case OfLayer => c := DiffItems(k, base.layers, staged.layers, LayerId);
    case OfOutline =>
      c := DiffOutline(base.outline, staged.outline);
      var l := Label(k, OUTLINE_ID);
      assert StatusOf(Find(base, k, OUTLINE_ID), Find(staged, k, OUTLINE_ID)) ==
        if base.outline == staged.outline then Same else if base.outline == [] then Added
        else if staged.outline == [] then Removed else Modified;
      forall x | x != OUTLINE_ID ensures StatusOf(Find(base, k, x), Find(staged, k, x)) == Same { }
  }

  method DiffKind(k: Kind, base: Graph, staged: Graph) returns (c: Changes)
    ensures KindReported(c, k, base, staged)
  {
    if k == OfComponent || k == OfNet || k == OfPlacement || k == OfWire || k == OfJunction {
      c := DiffCircuitKind(k, base, staged);
    } else if k == OfLayer || k == OfOutline {
      c := DiffFrameKind(k, base, staged);
    } else {
      c := DiffBoardKind(k, base, staged);
    }
  }

  /** Labels gathered for the kinds seen so far; no label is listed twice. */
  ghost predicate Gathered(c: Changes, kinds: seq<Kind>, base: Graph, staged: Graph) {
    forall s :: s != Same ==> UniqueKeys(ListOf(c, s), LabelKey) && Reports(c, s, kinds, base, staged)
  }

  function Extend'(c: Changes, d: Changes): Changes {
    Changes(c.added + d.added, c.removed + d.removed, c.modified + d.modified)
  }

  lemma GatherUnique(c: Changes, d: Changes, kinds: seq<Kind>, k: Kind, base: Graph, staged: Graph, s: Status)
    requires s != Same && UniqueKeys(ListOf(c, s), LabelKey) && Reports(c, s, kinds, base, staged)
    requires k !in kinds && KindReported(d, k, base, staged)
    ensures UniqueKeys(ListOf(Extend'(c, d), s), LabelKey)
  {
    var a, b := ListOf(c, s), ListOf(d, s);
    var all := a + b;
    assert ListOf(Extend'(c, d), s) == all;
    forall i, j | 0 <= i < j < |all| ensures LabelKey(all[i]) != LabelKey(all[j]) {
      if i < |a| <= j {
        assert all[i] in a && all[j] in b;
        var l, x :| l in kinds && all[i] == Label(l, x);
        var y :| all[j] == Label(k, y);
        LabelsDiffer(l, x, k, y);
        if LabelKey(all[i]) == LabelKey(all[j]) { CodesInjective(all[i], all[j]); }
      }
    }
  }

  lemma GatherReports(c: Changes, d: Changes, kinds: seq<Kind>, k: Kind, base: Graph, staged: Graph, s: Status)
    requires s != Same && Reports(c, s, kinds, base, staged) && KindReported(d, k, base, staged)
    ensures Reports(Extend'(c, d), s, kinds + [k], base, staged)
  {
    var e := Extend'(c, d);
    assert ListOf(e, s) == ListOf(c, s) + ListOf(d, s);
    forall l | l in ListOf(e, s)
      ensures exists j, x :: j in kinds + [k] && l == Label(j, x) && StatusOf(Find(base, j, x), Find(staged, j, x)) == s
    {
      if l in ListOf(c, s) {
        var j, x :| j in kinds && l == Label(j, x) && StatusOf(Find(base, j, x), Find(staged, j, x)) == s;
        assert j in kinds + [k];
      } else {
        var x :| l == Label(k, x) && StatusOf(Find(base, k, x), Find(staged, k, x)) == s;
        assert k in kinds + [k];
      }
    }
  }

  lemma Gather(c: Changes, d: Changes, kinds: seq<Kind>, k: Kind, base: Graph, staged: Graph)
    requires Gathered(c, kinds, base, staged) && k !in kinds && KindReported(d, k, base, staged)
    ensures Gathered(Extend'(c, d), kinds + [k], base, staged)
  {
    forall s | s != Same
      ensures UniqueKeys(ListOf(Extend'(c, d), s), LabelKey) && Reports(Extend'(c, d), s, kinds + [k], base, staged)
    {
      GatherUnique(c, d, kinds, k, base, staged, s);
      GatherReports(c, d, kinds, k, base, staged, s);
    }
  }

  /** The whole diff: three ascending label lists, each naming exactly the objects with its status. */
  ghost predicate ExactDiff(c: Changes, base: Graph, staged: Graph) {
    forall s :: s != Same ==> Ascending(ListOf(c, s), LabelKey) && Reports(c, s, KINDS, base, staged)
  }

  lemma SortChanges(c: Changes, base: Graph, staged: Graph)
    requires Gathered(c, KINDS, base, staged)
    ensures ExactDiff(Changes(SortBy(c.added, LabelKey), SortBy(c.removed, LabelKey), SortBy(c.modified, LabelKey)), base, staged)
  {
    var d := Changes(SortBy(c.added, LabelKey), SortBy(c.removed, LabelKey), SortBy(c.modified, LabelKey));
    forall s | s != Same ensures Ascending(ListOf(d, s), LabelKey) && Reports(d, s, KINDS, base, staged) {
      SortAscending(ListOf(c, s), LabelKey);
      SortElements(ListOf(c, s), LabelKey);
      assert Reports(c, s, KINDS, base, staged);
    }
  }

  method ComputeDiff(base: Graph, staged: Graph) returns (c: Changes)
    ensures ExactDiff(c, base, staged)
  {
    c := Changes([], [], []);
    var i := 0;
    while i < |KINDS|
      invariant 0 <= i <= |KINDS|
      invariant Gathered(c, KINDS[..i], base, staged)
    {
      var d := DiffKind(KINDS[i], base, staged);
      Gather(c, d, KINDS[..i], KINDS[i], base, staged);
      assert KINDS[..i] + [KINDS[i]] == KINDS[..i + 1];
      c := Extend'(c, d);
      i := i + 1;
    }
    assert KINDS[..i] == KINDS;
    SortChanges(c, base, staged);
    c := Changes(SortBy(c.added, LabelKey), SortBy(c.removed, LabelKey), SortBy(c.modified, LabelKey));
  }

  // ---------- What the lists mean ----------

  lemma EveryKind(k: Kind)
    ensures k in KINDS
  {
    match k
    case OfComponent => assert KINDS[0] == k;
    case OfNet => assert KINDS[1] == k;
    case OfPlacement => assert KINDS[2] == k;
    case OfTrack => assert KINDS[3] == k;
    case OfPad => assert KINDS[4] == k;
    case OfHole => assert KINDS[5] == k;
    case OfVia => assert KINDS[6] == k;
    case OfZone => assert KINDS[7] == k;
    case OfWire => assert KINDS[8] == k;
    case OfJunction => assert KINDS[9] == k;
    case OfLayer => assert KINDS[10] == k;
    case OfOutline => assert KINDS[11] == k;
  }

  /** An object is listed under its own status and under no other: the lists are complete and disjoint. */
  lemma ListedOnce(c: Changes, base: Graph, staged: Graph, k: Kind, x: Id, s: Status)
    requires ExactDiff(c, base, staged)
    ensures Label(k, x) in ListOf(c, s) <==> s != Same && StatusOf(Find(base, k, x), Find(staged, k, x)) == s
  {
    EveryKind(k);
    if s != Same {
      assert Reports(c, s, KINDS, base, staged);
      if Label(k, x) in ListOf(c, s) {
        var l, y :| l in KINDS && Label(k, x) == Label(l, y) && StatusOf(Find(base, l, y), Find(staged, l, y)) == s;
        LabelsDiffer(k, x, l, y);
      }
    }
  }

  lemma Disjoint(c: Changes, base: Graph, staged: Graph, l: string, s: Status, t: Status)
    requires ExactDiff(c, base, staged) && l in ListOf(c, s) && l in ListOf(c, t)
    ensures s == t
  {
    assert Reports(c, s, KINDS, base, staged);
    var k, x :| k in KINDS && l == Label(k, x) && StatusOf(Find(base, k, x), Find(staged, k, x)) == s;
    ListedOnce(c, base, staged, k, x, t);
  }

  // ---------- The lists on the objects themselves ----------

  ghost predicate Present<T(!new)>(xs: seq<T>, id: T -> Id, x: Id) { exists v :: v in xs && id(v) == x }

  /** The collection `xs` is what lookups of kind `k` see in `g`. */
  ghost predicate Holds<T(!new)>(g: Graph, k: Kind, xs: seq<T>, id: T -> Id, item: T -> Item) {
    forall x :: Find(g, k, x) == Wrap(FindBy(xs, id, x), item)
  }

  lemma CircuitHolds(g: Graph)
    ensures Holds(g, OfComponent, g.components, ComponentId, ComponentItem) && Holds(g, OfNet, g.nets, NetId, NetItem)
    ensures Holds(g, OfPlacement, g.placements, PlacementId, PlacementItem) && Holds(g, OfWire, g.wires, WireId, WireItem)
    ensures Holds(g, OfJunction, g.junctions, JunctionId, JunctionItem) && Holds(g, OfLayer, g.layers, LayerId, LayerItem)
  {
  }

  lemma BoardHolds(g: Graph)
    ensures Holds(g, OfTrack, g.tracks, TrackId, TrackItem) && Holds(g, OfPad, g.pads, PadId, PadItem)
    ensures Holds(g, OfHole, g.holes, HoleId, HoleItem) && Holds(g, OfVia, g.vias, ViaId, ViaItem) && Holds(g, OfZone, g.zones, ZoneId, ZoneItem)
  {
  }

  lemma FindsExactly<T(!new)>(xs: seq<T>, id: T -> Id, key: T -> Key, x: Id, v: T)
    requires UniqueKeys(xs, key) && forall y :: key(y) == Codes(id(y))
    ensures FindBy(xs, id, x) == Some(v) <==> v in xs && id(v) == x
  {
    if v in xs && id(v) == x {
      var w := FindBy(xs, id, x).value;
      var i :| 0 <= i < |xs| && xs[i] == v;
      var j :| 0 <= j < |xs| && xs[j] == w;
      assert key(xs[i]) == key(xs[j]);
    }
  }

  /**
   For every kind of object with distinct IDs: a label is added if only the staged graph has the object,
   removed if only the base graph has it, and modified if both have it and it differs.
   */
  lemma ReportedExactly<T(!new)>(c: Changes, base: Graph, staged: Graph, k: Kind, xs: seq<T>, ys: seq<T>, id: T -> Id, key: T -> Key, item: T -> Item, x: Id)
    requires ExactDiff(c, base, staged) && Holds(base, k, xs, id, item) && Holds(staged, k, ys, id, item)
    requires UniqueKeys(xs, key) && UniqueKeys(ys, key) && forall y :: key(y) == Codes(id(y))
    requires forall y, z :: item(y) == item(z) ==> y == z
    ensures Label(k, x) in c.added <==> Present(ys, id, x) && !Present(xs, id, x)
    ensures Label(k, x) in c.removed <==> Present(xs, id, x) && !Present(ys, id, x)
    ensures Label(k, x) in c.modified <==> exists u, v :: u in xs && v in ys && id(u) == x && id(v) == x && u != v
  {
    ListedOnce(c, base, staged, k, x, Added);
    ListedOnce(c, base, staged, k, x, Removed);
    ListedOnce(c, base, staged, k, x, Modified);
    StatusExactly(Find(base, k, x), Find(staged, k, x));
    var p, q := FindBy(xs, id, x), FindBy(ys, id, x);
    assert Find(base, k, x) == Wrap(p, item) && Find(staged, k, x) == Wrap(q, item);
    forall u | u in xs && id(u) == x ensures p == Some(u) { FindsExactly(xs, id, key, x, u); }
    forall v | v in ys && id(v) == x ensures q == Some(v) { FindsExactly(ys, id, key, x, v); }
  }

  // ---------- No change means the same graph ----------

  /** Ascending collections with the same lookups are equal. */
  lemma SameLookups<T(!new)>(xs: seq<T>, ys: seq<T>, id: T -> Id, key: T -> Key)
    requires Ascending(xs, key) && Ascending(ys, key)
    requires forall x :: key(x) == Codes(id(x))
    requires forall x :: FindBy(xs, id, x) == FindBy(ys, id, x)
    ensures xs == ys
  {
    forall v ensures v in xs <==> v in ys {
      if v in xs { FindsIt(xs, id, key, v); }
      if v in ys { FindsIt(ys, id, key, v); }
      assert FindBy(xs, id, id(v)) == FindBy(ys, id, id(v));
    }
    AscendingDetermined(xs, ys, key);
  }

  lemma FindsIt<T(!new)>(xs: seq<T>, id: T -> Id, key: T -> Key, v: T)
    requires Ascending(xs, key) && v in xs
    requires forall x :: key(x) == Codes(id(x))
    ensures FindBy(xs, id, id(v)) == Some(v)
  {
    AscendingIsUnique(xs, key);
    var r := FindBy(xs, id, id(v));
    var w := r.value;
    var i :| 0 <= i < |xs| && xs[i] == v;
    var j :| 0 <= j < |xs| && xs[j] == w;
    assert key(xs[i]) == key(xs[j]);
  }

  lemma WrapSame<T(!new)>(xs: seq<T>, ys: seq<T>, id: T -> Id, item: T -> Item)
    requires forall x, y :: item(x) == item(y) ==> x == y
    requires forall x :: Wrap(FindBy(xs, id, x), item) == Wrap(FindBy(ys, id, x), item)
    ensures forall x :: FindBy(xs, id, x) == FindBy(ys, id, x)
  {
    forall x ensures FindBy(xs, id, x) == FindBy(ys, id, x) {
      assert Wrap(FindBy(xs, id, x), item) == Wrap(FindBy(ys, id, x), item);
    }
  }

  ghost predicate SameKind(k: Kind, g: Graph, h: Graph) { forall x :: Find(g, k, x) == Find(h, k, x) }

  lemma SameItems<T(!new)>(k: Kind, g: Graph, h: Graph, xs: seq<T>, ys: seq<T>, id: T -> Id, key: T -> Key, item: T -> Item)
    requires Ascending(xs, key) && Ascending(ys, key)
    requires forall x :: key(x) == Codes(id(x))
    requires forall x, y :: item(x) == item(y) ==> x == y
    requires Holds(g, k, xs, id, item) && Holds(h, k, ys, id, item) && SameKind(k, g, h)
    ensures xs == ys
  {
    forall x ensures Wrap(FindBy(xs, id, x), item) == Wrap(FindBy(ys, id, x), item) {
      assert Find(g, k, x) == Find(h, k, x);
    }
    WrapSame(xs, ys, id, item);
    SameLookups(xs, ys, id, key);
  }

  /** Every collection is in ascending order of its key. */
  ghost predicate Ordered(g: Graph) {
    && Ascending(g.components, ComponentKey) && Ascending(g.nets, NetKey) && Ascending(g.placements, PlacementKey)
    && Ascending(g.tracks, TrackKey) && Ascending(g.pads, PadKey) && Ascending(g.holes, HoleKey)
    && Ascending(g.vias, ViaKey) && Ascending(g.zones, ZoneKey) && Ascending(g.wires, WireKey)
    && Ascending(g.junctions, JunctionKey) && Ascending(g.layers, LayerKey)
  }

  lemma SettledOrdered(g: Graph)
    requires Settled(g)
    ensures Ordered(g)
  {
    NormalIsTidy(g);
    SortAscending(g.layers, LayerKey);
  }

  lemma SameComponents(g: Graph, h: Graph)
    requires Ascending(g.components, ComponentKey) && Ascending(h.components, ComponentKey) && SameKind(OfComponent, g, h)
    ensures g.components == h.components
  {
    SameItems(OfComponent, g, h, g.components, h.components, ComponentId, ComponentKey, ComponentItem);
  }

  lemma SameNets(g: Graph, h: Graph)
    requires Ascending(g.nets, NetKey) && Ascending(h.nets, NetKey) && SameKind(OfNet, g, h)
    ensures g.nets == h.nets
  {
    SameItems(OfNet, g, h, g.nets, h.nets, NetId, NetKey, NetItem);
  }

  lemma SamePlacements(g: Graph, h: Graph)
    requires Ascending(g.placements, PlacementKey) && Ascending(h.placements, PlacementKey) && SameKind(OfPlacement, g, h)
    ensures g.placements == h.placements
  {
    SameItems(OfPlacement, g, h, g.placements, h.placements, PlacementId, PlacementKey, PlacementItem);
  }

  lemma SameTracks(g: Graph, h: Graph)
    requires Ascending(g.tracks, TrackKey) && Ascending(h.tracks, TrackKey) && SameKind(OfTrack, g, h)
    ensures g.tracks == h.tracks
  {
    SameItems(OfTrack, g, h, g.tracks, h.tracks, TrackId, TrackKey, TrackItem);
  }

  lemma SamePads(g: Graph, h: Graph)
    requires Ascending(g.pads, PadKey) && Ascending(h.pads, PadKey) && SameKind(OfPad, g, h)
    ensures g.pads == h.pads
  {
    SameItems(OfPad, g, h, g.pads, h.pads, PadId, PadKey, PadItem);
  }

  lemma SameHoles(g: Graph, h: Graph)
    requires Ascending(g.holes, HoleKey) && Ascending(h.holes, HoleKey) && SameKind(OfHole, g, h)
    ensures g.holes == h.holes
  {
    SameItems(OfHole, g, h, g.holes, h.holes, HoleId, HoleKey, HoleItem);
  }

  lemma SameVias(g: Graph, h: Graph)
    requires Ascending(g.vias, ViaKey) && Ascending(h.vias, ViaKey) && SameKind(OfVia, g, h)
    ensures g.vias == h.vias
  {
    SameItems(OfVia, g, h, g.vias, h.vias, ViaId, ViaKey, ViaItem);
  }

  lemma SameZones(g: Graph, h: Graph)
    requires Ascending(g.zones, ZoneKey) && Ascending(h.zones, ZoneKey) && SameKind(OfZone, g, h)
    ensures g.zones == h.zones
  {
    SameItems(OfZone, g, h, g.zones, h.zones, ZoneId, ZoneKey, ZoneItem);
  }

  lemma SameWires(g: Graph, h: Graph)
    requires Ascending(g.wires, WireKey) && Ascending(h.wires, WireKey) && SameKind(OfWire, g, h)
    ensures g.wires == h.wires
  {
    SameItems(OfWire, g, h, g.wires, h.wires, WireId, WireKey, WireItem);
  }

  lemma SameJunctions(g: Graph, h: Graph)
    requires Ascending(g.junctions, JunctionKey) && Ascending(h.junctions, JunctionKey) && SameKind(OfJunction, g, h)
    ensures g.junctions == h.junctions
  {
    SameItems(OfJunction, g, h, g.junctions, h.junctions, JunctionId, JunctionKey, JunctionItem);
  }

  lemma SameLayers(g: Graph, h: Graph)
    requires Ascending(g.layers, LayerKey) && Ascending(h.layers, LayerKey) && SameKind(OfLayer, g, h)
    ensures g.layers == h.layers
  {
    SameItems(OfLayer, g, h, g.layers, h.layers, LayerId, LayerKey, LayerItem);
  }

  lemma SameOutline(g: Graph, h: Graph)
    requires SameKind(OfOutline, g, h)
    ensures g.outline == h.outline
  {
    assert Find(g, OfOutline, OUTLINE_ID) == Find(h, OfOutline, OUTLINE_ID);
  }

  lemma SameCircuit(g: Graph, h: Graph)
    requires Ordered(g) && Ordered(h) && forall k :: SameKind(k, g, h)
    ensures g.components == h.components && g.nets == h.nets && g.placements == h.placements
    ensures g.wires == h.wires && g.junctions == h.junctions && g.layers == h.layers && g.outline == h.outline
  {
    SameComponents(g, h);
    SameNets(g, h);
    SamePlacements(g, h);
    SameWires(g, h);
    SameJunctions(g, h);
    SameLayers(g, h);
    SameOutline(g, h);
  }

  lemma SameBoard(g: Graph, h: Graph)
    requires Ordered(g) && Ordered(h) && forall k :: SameKind(k, g, h)
    ensures g.tracks == h.tracks && g.pads == h.pads && g.holes == h.holes && g.vias == h.vias && g.zones == h.zones
  {
    SameTracks(g, h);
    SamePads(g, h);
    SameHoles(g, h);
    SameVias(g, h);
    SameZones(g, h);
  }

  lemma SameObjectsSameGraph(g: Graph, h: Graph)
    requires Settled(g) && Settled(h) && g.projectId == h.projectId
    ensures g == h <==> forall k :: SameKind(k, g, h)
  {
    if forall k :: SameKind(k, g, h) {
      SettledOrdered(g);
      SettledOrdered(h);
      SameCircuit(g, h);
      SameBoard(g, h);
    }
  }

  lemma EmptySeq(s: seq<string>)
    ensures s == [] <==> forall l :: l !in s
  {
    assert s != [] ==> s[0] in s;
  }

  /** Nothing is listed exactly when the two graphs are one. */
  lemma EmptyDiffExactly(c: Changes, base: Graph, staged: Graph)
    requires ExactDiff(c, base, staged) && Settled(base) && Settled(staged) && base.projectId == staged.projectId
    ensures c == Changes([], [], []) <==> staged == base
  {
    SameObjectsSameGraph(base, staged);
    if c == Changes([], [], []) {
      forall k ensures SameKind(k, base, staged) {
        forall x ensures Find(base, k, x) == Find(staged, k, x) {
          ListedOnce(c, base, staged, k, x, StatusOf(Find(base, k, x), Find(staged, k, x)));
        }
      }
    }
    if staged == base {
      forall s | s != Same ensures ListOf(c, s) == [] {
        assert Reports(c, s, KINDS, base, staged);
        assert forall l :: l !in ListOf(c, s);
        EmptySeq(ListOf(c, s));
      }
      assert ListOf(c, Added) == [] && ListOf(c, Removed) == [] && ListOf(c, Modified) == [];
    }
  }

  // ---------- Reachable transactions ----------

  lemma ApplyKeepsProject(g: Graph, op: Op)
    requires Apply(g, op).Ok?
    ensures Apply(g, op).value.projectId == g.projectId
  {
  }

  lemma {:induction false} RunKeepsProject(g: Graph, commands: seq<Command>)
    requires Run(CommandEffect, g, commands).Some?
    ensures Run(CommandEffect, g, commands).value.projectId == g.projectId
    decreases |commands|
  {
    if commands != [] {
      var h := CommandEffect(g, commands[0]).value;
      ApplyKeepsProject(g, commands[0].op);
      RunKeepsProject(h, commands[1..]);
    }
  }

  datatype SemanticDiff = SemanticDiff(base: Digest, graph: Digest, changes: Changes, commandIds: seq<Id>, preview: Digest)

  /** The whole record: the three lists and what they are bound to. */
  ghost predicate Describes(d: SemanticDiff, base: Graph, t: Transaction) {
    && ExactDiff(d.changes, base, t.staged)
    && d.base == t.base && d.graph == HashOf(t.staged) && d.preview == t.preview
    && |d.commandIds| == |t.commands| && forall i :: 0 <= i < |t.commands| ==> d.commandIds[i] == t.commands[i].id
  }

  method PreviewTransaction(base: Graph, t: Transaction) returns (d: SemanticDiff)
    ensures Describes(d, base, t)
  {
    var changes := ComputeDiff(base, t.staged);
    d := SemanticDiff(t.base, HashOf(t.staged), changes, MapSeq(t.commands, (c: Command) => c.id), t.preview);
  }

  /**
   In every reachable kernel the preview of a transaction lists nothing exactly when it stages its
   base graph unchanged, and its digest covers exactly the base, the staged graph and the commands.
   */
  lemma PreviewIsExact(k: Kernel, id: Id, d: SemanticDiff)
    requires KernelOk(k) && id in k.transactions && k.transactions[id].base in k.revisions
    requires Describes(d, k.revisions[k.transactions[id].base].graph, k.transactions[id])
    ensures d.changes == Changes([], [], []) <==> k.transactions[id].staged == k.revisions[k.transactions[id].base].graph
    ensures d.preview == PreviewHash(d.base, id, d.graph, HashesOf(k.transactions[id].commands))
  {
    var t := k.transactions[id];
    assert TransactionOk(k, id) && RevisionOk(k, t.base);
    RunKeepsProject(k.revisions[t.base].graph, t.commands);
    EmptyDiffExactly(d.changes, k.revisions[t.base].graph, t.staged);
  }
}
