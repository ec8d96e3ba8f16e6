/**
 Any number of ledger clients on one database and one anchor register
 (backend/import_approval/ledger.py:303-481, 504-591), step by step: a client may crash, stall or
 lose a reply between any two steps, in particular between its database commit and the
 compare-and-swap of the anchor.
 */
module LedgerRuns {
  import opened Graph
  import opened Ledger

  /** Where a client stands inside one ledger call. */
  datatype Task<B> =
    | Idle
    | Writing(row: StateRow<B>, body: B, at: int)
    | Ready(row: StateRow<B>, body: B, at: int)
    | Advancing(expected: Anchor<B>, rows: seq<Event<B>>)
    | Loading(rows: seq<Event<B>>)
    | Loaded(rows: seq<Event<B>>)
    | Confirming(rows: seq<Event<B>>)
    /** The call returned and reported the head of `rows` as anchored. */
    | Anchored(rows: seq<Event<B>>)

  datatype Client<B> = Client(poisoned: bool, task: Task<B>)

  datatype World<B> = World(db: Database<B>, anchor: Anchor<B>, lock: Option<nat>, clients: seq<Client<B>>)

  /** `up` says whether the register can be read, `fate` what becomes of a compare-and-swap. */
  datatype Act<B> =
    | Join
    | Crash
    | Abort
    | BeginAppend(expected: Digest<B>, body: B, at: int)
    | CheckAnchor(up: bool)
    | CommitRow
    | Swap(fate: Fate)
    | ReadSnapshot
    | CheckPrefix(up: bool)
    | BeginConfirm
    | CheckConfirm(up: bool)

  function Start<B>(key: string): World<B> { World(Database([], StateOf(key, [])), Anchor(0, Zero), None, []) }

  function Released<B>(w: World<B>, i: nat): Option<nat> { if w.lock == Some(i) then None else w.lock }

  function At<B>(w: World<B>, i: nat, task: Task<B>): World<B>
    requires i < |w.clients|
  {
    w.(clients := w.clients[i := w.clients[i].(task := task)])
  }

  function Poison<B>(w: World<B>, i: nat): World<B>
    requires i < |w.clients|
  {
    w.(clients := w.clients[i := Client(true, Idle)], lock := Released(w, i))
  }

  predicate Waiting<B>(c: Client<B>) {
    !c.poisoned && (c.task.Idle? || c.task.Loaded? || c.task.Anchored?)
  }

  // ---------- Steps ----------

  function DoBeginAppend<B(==)>(key: string, w: World<B>, i: nat, expected: Digest<B>, body: B, at: int): World<B>
    requires i < |w.clients|
  {
    var row := w.db.state;
    if !Waiting(w.clients[i]) || w.lock.Some? || row.sequence < 0 || row.seal != StateSeal(key, row.sequence, row.digest, row.at)
       || row.digest != expected then w
    else At(w.(lock := Some(i)), i, Writing(row, body, at))
  }

  function DoCheckAnchor<B(==)>(w: World<B>, i: nat, up: bool): World<B>
    requires i < |w.clients|
  {
    match w.clients[i].task
    case Writing(row, body, at) =>
      if !up || w.anchor.sequence != row.sequence || w.anchor.digest != row.digest then Poison(w, i)
      else if row.at.Some? && at < row.at.value then At(w.(lock := Released(w, i)), i, Idle)
      else At(w, i, Ready(row, body, at))
    case _ => w
  }

  function DoCommitRow<B(==)>(key: string, w: World<B>, i: nat): World<B>
    requires i < |w.clients|
  {
    match w.clients[i].task
    case Ready(row, body, at) =>
      if row.sequence < 0 then w
      else
        var db := Appended(key, w.db, body, at);
        At(w.(db := db, lock := Released(w, i)), i, Advancing(Anchor(row.sequence, row.digest), db.rows))
    case _ => w
  }

  /** The call succeeds when the register answers with the new anchor, whoever put it there. */
  function DoSwap<B(==)>(w: World<B>, i: nat, fate: Fate): World<B>
    requires i < |w.clients|
  {
    match w.clients[i].task
    case Advancing(expected, rows) =>
      var v := w.(anchor := Swapped(fate, w.anchor, expected, AnchorOf(rows)));
      if fate == Answers && v.anchor == AnchorOf(rows) then At(v, i, Anchored(rows)) else Poison(v, i)
    case _ => w
  }

  ghost function DoReadSnapshot<B>(key: string, w: World<B>, i: nat): World<B>
    requires i < |w.clients|
  {
    if !Waiting(w.clients[i]) || !Intact(key, w.db) then w else At(w, i, Loading(w.db.rows))
  }

  function DoCheckPrefix<B(==)>(w: World<B>, i: nat, up: bool): World<B>
    requires i < |w.clients|
  {
    match w.clients[i].task
    case Loading(rows) => if up && Names(w.anchor, rows) then At(w, i, Loaded(rows)) else Poison(w, i)
    case _ => w
  }

  function DoBeginConfirm<B(==)>(key: string, w: World<B>, i: nat): World<B>
    requires i < |w.clients|
  {
    match w.clients[i].task
    case Loaded(rows) =>
      if w.clients[i].poisoned then w
      else At(w, i, if w.db.state == StateOf(key, rows) then Confirming(rows) else Idle)
    case _ => w
  }

  function DoCheckConfirm<B(==)>(w: World<B>, i: nat, up: bool): World<B>
    requires i < |w.clients|
  {
    match w.clients[i].task
    case Confirming(rows) =>
      if !up || !Names(w.anchor, rows) then Poison(w, i)
      else At(w, i, if w.anchor == AnchorOf(rows) then Anchored(rows) else Advancing(w.anchor, rows))
    case _ => w
  }

  /** One step of client `i`; a step it cannot take changes nothing. */
  ghost function Next<B>(key: string, w: World<B>, i: nat, act: Act<B>): World<B> {
    if act.Join? then w.(clients := w.clients + [Client(false, Idle)])
    else if i >= |w.clients| then w
    else
      match act
      case Join => w
      case Crash => w.(clients := w.clients[i := Client(false, Idle)], lock := Released(w, i))
      case Abort => At(w.(lock := Released(w, i)), i, Idle)
      case BeginAppend(expected, body, at) => DoBeginAppend(key, w, i, expected, body, at)
      case CheckAnchor(up) => DoCheckAnchor(w, i, up)
      case CommitRow => DoCommitRow(key, w, i)
      case Swap(fate) => DoSwap(w, i, fate)
      case ReadSnapshot => DoReadSnapshot(key, w, i)
      case CheckPrefix(up) => DoCheckPrefix(w, i, up)
      case BeginConfirm => DoBeginConfirm(key, w, i)
      case CheckConfirm(up) => DoCheckConfirm(w, i, up)
  }

  ghost function RunAll<B>(key: string, w: World<B>, acts: seq<(nat, Act<B>)>): World<B>
    decreases |acts|
  {
    if acts == [] then w else RunAll(key, Next(key, w, acts[0].0, acts[0].1), acts[1..])
  }

  // ---------- The invariant ----------

  ghost predicate TaskOk<B>(w: World<B>, j: nat, task: Task<B>) {
    match task
    case Idle => true
    case Writing(row, _, _) => w.lock == Some(j) && row == w.db.state
    case Ready(row, _, at) =>
      && w.lock == Some(j) && row == w.db.state && w.anchor == AnchorOf(w.db.rows)
      && (row.at.Some? ==> row.at.value <= at)
    case Advancing(expected, rows) => rows <= w.db.rows && Names(expected, w.db.rows) && expected.sequence < |rows|
    case Anchored(rows) => rows <= w.db.rows && |rows| <= w.anchor.sequence
    case Loading(rows) => rows <= w.db.rows
    case Loaded(rows) => rows <= w.db.rows
    case Confirming(rows) => rows <= w.db.rows
  }

  /** The anchor names an exact prefix of an intact chain, at most one event short of it. */
  ghost predicate Safe<B>(key: string, w: World<B>) {
    Intact(key, w.db) && Names(w.anchor, w.db.rows) && |w.db.rows| <= w.anchor.sequence + 1
  }

  ghost predicate WorldOk<B>(key: string, w: World<B>) {
    Safe(key, w) && forall j: nat :: j < |w.clients| ==> TaskOk(w, j, w.clients[j].task)
  }

  lemma NamesLonger<B>(a: Anchor<B>, r: seq<Event<B>>, s: seq<Event<B>>)
    requires Names(a, r) && r <= s
    ensures Names(a, s)
  {
    assert s[..a.sequence] == r[..a.sequence];
  }

  lemma NamesItself<B>(r: seq<Event<B>>, s: seq<Event<B>>)
    requires r <= s
    ensures Names(AnchorOf(r), s)
  {
    assert s[..|r|] == r;
  }

  /** Nothing but client `i` and perhaps its hold on the lock has changed. */
  ghost predicate OnlyClient<B>(w: World<B>, v: World<B>, i: nat) {
    && i < |w.clients| == |v.clients| && v.db == w.db && v.anchor == w.anchor
    && (v.lock == w.lock || (v.lock == Some(i) && w.lock.None?) || (w.lock == Some(i) && v.lock.None?))
    && (forall j: nat :: j < |w.clients| && j != i ==> v.clients[j] == w.clients[j])
    && TaskOk(v, i, v.clients[i].task)
  }

  lemma LocalStep<B>(key: string, w: World<B>, v: World<B>, i: nat)
    requires WorldOk(key, w) && OnlyClient(w, v, i)
    ensures WorldOk(key, v)
  {
    forall j: nat | j < |v.clients| ensures TaskOk(v, j, v.clients[j].task) {
      if j != i { assert TaskOk(w, j, w.clients[j].task); }
    }
  }

  lemma WriterSteps<B>(key: string, w: World<B>, i: nat, act: Act<B>)
    requires Safe(key, w) && i < |w.clients| && TaskOk(w, i, w.clients[i].task)
    requires act.Crash? || act.Abort? || act.BeginAppend? || act.CheckAnchor?
    ensures OnlyClient(w, Next(key, w, i, act), i)
  {
  }

  lemma ReaderSteps<B>(key: string, w: World<B>, i: nat, act: Act<B>)
    requires Safe(key, w) && i < |w.clients| && TaskOk(w, i, w.clients[i].task)
    requires act.ReadSnapshot? || act.CheckPrefix? || act.BeginConfirm?
    ensures OnlyClient(w, Next(key, w, i, act), i)
  {
  }

  lemma NamesShorter<B>(a: Anchor<B>, r: seq<Event<B>>)
    requires Names(a, r)
    ensures a == AnchorOf(r) <==> a.sequence == |r|
  {
    assert r[..|r|] == r;
  }

  lemma ConfirmStep<B>(w: World<B>, i: nat, up: bool)
    requires i < |w.clients| && TaskOk(w, i, w.clients[i].task) && Names(w.anchor, w.db.rows)
    ensures OnlyClient(w, DoCheckConfirm(w, i, up), i)
  {
    if w.clients[i].task.Confirming? && Names(w.anchor, w.clients[i].task.rows) {
      NamesShorter(w.anchor, w.clients[i].task.rows);
    }
  }

  lemma IdleSteps<B>(key: string, w: World<B>, i: nat, act: Act<B>)
    requires i < |w.clients| && TaskOk(w, i, w.clients[i].task)
    requires || (act.CommitRow? && !w.clients[i].task.Ready?)
             || (act.Swap? && (!w.clients[i].task.Advancing? || act.fate == Unreachable || w.anchor != w.clients[i].task.expected))
    ensures OnlyClient(w, Next(key, w, i, act), i)
  {
  }

  lemma CommitStep<B>(key: string, w: World<B>, i: nat)
    requires WorldOk(key, w) && i < |w.clients| && w.clients[i].task.Ready?
    ensures WorldOk(key, DoCommitRow(key, w, i))
  {
    var v := DoCommitRow(key, w, i);
    assert TaskOk(w, i, w.clients[i].task);
    var task := w.clients[i].task;
    AppendedIntact(key, w.db, task.body, task.at);
    NamesLonger(w.anchor, w.db.rows, v.db.rows);
    forall j: nat | j < |v.clients| ensures TaskOk(v, j, v.clients[j].task) {
      assert TaskOk(w, j, w.clients[j].task);
      if j != i && w.clients[j].task.Advancing? {
        NamesLonger(w.clients[j].task.expected, w.db.rows, v.db.rows);
      }
    }
  }

  lemma SwapStep<B>(key: string, w: World<B>, i: nat, fate: Fate)
    requires WorldOk(key, w) && i < |w.clients| && w.clients[i].task.Advancing?
    requires fate != Unreachable && w.anchor == w.clients[i].task.expected
    ensures WorldOk(key, DoSwap(w, i, fate))
  {
    var v := DoSwap(w, i, fate);
    assert TaskOk(w, i, w.clients[i].task);
    NamesItself(w.clients[i].task.rows, w.db.rows);
    forall j: nat | j < |v.clients| ensures TaskOk(v, j, v.clients[j].task) {
      assert TaskOk(w, j, w.clients[j].task);
    }
  }

  /** Every step of every client keeps the invariant. */
  lemma StepKeeps<B>(key: string, w: World<B>, i: nat, act: Act<B>)
    requires WorldOk(key, w)
    ensures WorldOk(key, Next(key, w, i, act))
  {
    var v := Next(key, w, i, act);
    if act.Join? {
      forall j: nat | j < |v.clients| ensures TaskOk(v, j, v.clients[j].task) {
        if j < |w.clients| { assert TaskOk(w, j, w.clients[j].task); }
      }
    } else if i < |w.clients| {
      assert TaskOk(w, i, w.clients[i].task);
      if act.CommitRow? && w.clients[i].task.Ready? {
        CommitStep(key, w, i);
      } else if act.Swap? && w.clients[i].task.Advancing? && act.fate != Unreachable && w.anchor == w.clients[i].task.expected {
        SwapStep(key, w, i, act.fate);
      } else {
        match act {
          case CommitRow => IdleSteps(key, w, i, act);
          case Swap(_) => IdleSteps(key, w, i, act);
          case Crash => WriterSteps(key, w, i, act);
          case Abort => WriterSteps(key, w, i, act);
          case BeginAppend(_, _, _) => WriterSteps(key, w, i, act);
          case CheckAnchor(_) => WriterSteps(key, w, i, act);
          case CheckConfirm(up) => ConfirmStep(w, i, up);
          case _ => ReaderSteps(key, w, i, act);
        }
        LocalStep(key, w, v, i);
      }
    }
  }

  // ---------- Over every run ----------

  /** History only grows and the anchor only moves forward along it. */
  ghost predicate Onward<B>(w: World<B>, v: World<B>) {
    w.db.rows <= v.db.rows && w.anchor.sequence <= v.anchor.sequence
  }

  lemma StepOnward<B>(key: string, w: World<B>, i: nat, act: Act<B>)
    requires WorldOk(key, w)
    ensures Onward(w, Next(key, w, i, act))
  {
    if i < |w.clients| { assert TaskOk(w, i, w.clients[i].task); }
  }

  lemma {:induction false} RunKeeps<B>(key: string, w: World<B>, acts: seq<(nat, Act<B>)>)
    requires WorldOk(key, w)
    ensures WorldOk(key, RunAll(key, w, acts)) && Onward(w, RunAll(key, w, acts))
    decreases |acts|
  {
    if acts != [] {
      var v := Next(key, w, acts[0].0, acts[0].1);
      StepKeeps(key, w, acts[0].0, acts[0].1);
      StepOnward(key, w, acts[0].0, acts[0].1);
      RunKeeps(key, v, acts[1..]);
    }
  }

  lemma StartOk<B>(key: string)
    ensures WorldOk(key, Start<B>(key))
  {
  }

  /** From a new ledger, in every interleaving: an exact prefix, at most one event behind, never backwards. */
  lemma AnchorAlwaysSafe<B>(key: string, acts: seq<(nat, Act<B>)>, more: seq<(nat, Act<B>)>)
    ensures var w := RunAll(key, Start<B>(key), acts); Safe(key, w) && Onward(w, RunAll(key, w, more))
  {
    StartOk<B>(key);
    RunKeeps(key, Start<B>(key), acts);
    RunKeeps(key, RunAll(key, Start<B>(key), acts), more);
  }

  /** A head once reported as anchored stays in the chain at or before the anchor for good. */
  lemma AnchoredForGood<B>(key: string, acts: seq<(nat, Act<B>)>, i: nat, more: seq<(nat, Act<B>)>)
    requires var w := RunAll(key, Start<B>(key), acts); i < |w.clients| && w.clients[i].task.Anchored?
    ensures var w := RunAll(key, Start<B>(key), acts);
            var rows, v := w.clients[i].task.rows, RunAll(key, w, more);
            rows <= v.db.rows && |rows| <= v.anchor.sequence <= |v.db.rows| && v.anchor == AnchorOf(v.db.rows[..v.anchor.sequence])
  {
    StartOk<B>(key);
    var w := RunAll(key, Start<B>(key), acts);
    RunKeeps(key, Start<B>(key), acts);
    RunKeeps(key, w, more);
    assert TaskOk(w, i, w.clients[i].task);
  }

  // ---------- A database behind its anchor ----------

  /** The database was put back to an earlier state, or to any other sealed one with fewer events than the anchor counts; every client restarted. */
  ghost predicate RolledBack<B>(key: string, w: World<B>) {
    && Intact(key, w.db) && |w.db.rows| < w.anchor.sequence && w.lock.None?
    && forall j: nat :: j < |w.clients| ==> w.clients[j].task.Idle?
  }

  /** No client has got past the anchor check. */
  ghost predicate Stuck<B>(db: Database<B>, task: Task<B>) {
    match task
    case Idle => true
    case Writing(row, _, _) => row == db.state
    case Loading(rows) => rows == db.rows
    case _ => false
  }

  ghost predicate AllStuck<B>(key: string, db: Database<B>, anchor: Anchor<B>, w: World<B>) {
    && w.db == db && w.anchor == anchor && Intact(key, db) && |db.rows| < anchor.sequence
    && forall j: nat :: j < |w.clients| ==> Stuck(db, w.clients[j].task)
  }

  lemma StuckClient<B>(key: string, w: World<B>, i: nat, act: Act<B>)
    requires i < |w.clients| && !act.Join? && Stuck(w.db, w.clients[i].task) && Intact(key, w.db) && |w.db.rows| < w.anchor.sequence
    ensures var v := Next(key, w, i, act);
            && v.db == w.db && v.anchor == w.anchor && |v.clients| == |w.clients| && Stuck(w.db, v.clients[i].task)
            && forall j: nat :: j < |w.clients| && j != i ==> v.clients[j] == w.clients[j]
  {
  }

  lemma StuckStep<B>(key: string, db: Database<B>, anchor: Anchor<B>, w: World<B>, i: nat, act: Act<B>)
    requires AllStuck(key, db, anchor, w)
    ensures AllStuck(key, db, anchor, Next(key, w, i, act))
  {
    var v := Next(key, w, i, act);
    if i < |w.clients| && !act.Join? { StuckClient(key, w, i, act); }
    forall j: nat | j < |v.clients| ensures Stuck(db, v.clients[j].task) {
      if j < |w.clients| { assert Stuck(db, w.clients[j].task); }
    }
  }

  /**
   A sealed database shorter than its anchor is dead: whatever any clients do, nothing is ever
   loaded, confirmed or appended, and neither the database nor the anchor moves.
   */
  lemma {:induction false} ShorterDatabaseRefused<B>(key: string, w: World<B>, acts: seq<(nat, Act<B>)>)
    requires RolledBack(key, w)
    ensures AllStuck(key, w.db, w.anchor, RunAll(key, w, acts))
  {
    assert AllStuck(key, w.db, w.anchor, w) by {
      forall j: nat | j < |w.clients| ensures Stuck(w.db, w.clients[j].task) { }
    }
    StuckRun(key, w.db, w.anchor, w, acts);
  }

  lemma {:induction false} StuckRun<B>(key: string, db: Database<B>, anchor: Anchor<B>, w: World<B>, acts: seq<(nat, Act<B>)>)
    requires AllStuck(key, db, anchor, w)
    ensures AllStuck(key, db, anchor, RunAll(key, w, acts))
    decreases |acts|
  {
    if acts != [] {
      StuckStep(key, db, anchor, w, acts[0].0, acts[0].1);
      StuckRun(key, db, anchor, Next(key, w, acts[0].0, acts[0].1), acts[1..]);
    }
  }

  /**
   Replacing the database of a reachable ledger by any other sealed database is noticed unless
   every anchored event is still in place.
   */
  lemma ReplacedDatabaseNoticed<B>(key: string, acts: seq<(nat, Act<B>)>, other: Database<B>, i: nat)
    requires var w := RunAll(key, Start<B>(key), acts); i < |w.clients| && Waiting(w.clients[i]) && Intact(key, other)
    ensures var w := RunAll(key, Start<B>(key), acts);
            var n := w.anchor.sequence;
            var v := DoCheckPrefix(DoReadSnapshot(key, w.(db := other), i), i, true);
            v.clients[i] == if n <= |other.rows| && n <= |w.db.rows| && other.rows[..n] == w.db.rows[..n] then Client(false, Loaded(other.rows)) else Client(true, Idle)
  {
    StartOk<B>(key);
    var w := RunAll(key, Start<B>(key), acts);
    RunKeeps(key, Start<B>(key), acts);
    AnchoredHistoryCannotBeRewritten(key, w.db.rows, other.rows, w.anchor);
  }

  // ---------- Recovery ----------

  lemma RunStep<B>(key: string, w: World<B>, i: nat, act: Act<B>, rest: seq<(nat, Act<B>)>)
    ensures RunAll(key, w, [(i, act)] + rest) == RunAll(key, Next(key, w, i, act), rest)
  {
    var acts := [(i, act)] + rest;
    assert acts[1..] == rest;
  }

  function Recovery<B>(i: nat): seq<(nat, Act<B>)> {
    [(i, Crash)] + ([(i, ReadSnapshot)] + ([(i, CheckPrefix(true))] + ([(i, BeginConfirm)] + ([(i, CheckConfirm(true))] + ([(i, Swap(Answers))] + [])))))
  }

  lemma RecoveryRuns<B>(key: string, w: World<B>, i: nat)
    ensures RunAll(key, w, Recovery(i)) ==
      Next(key, Next(key, Next(key, Next(key, Next(key, Next(key, w, i, Crash), i, ReadSnapshot), i, CheckPrefix(true)), i, BeginConfirm), i, CheckConfirm(true)), i, Swap(Answers))
  {
    var w1 := Next(key, w, i, Crash);
    var w2 := Next(key, w1, i, ReadSnapshot);
    var w3 := Next(key, w2, i, CheckPrefix(true));
    var w4 := Next(key, w3, i, BeginConfirm);
    var w5 := Next(key, w4, i, CheckConfirm(true));
    RunStep(key, w5, i, Swap(Answers), []);
    RunStep(key, w4, i, CheckConfirm(true), [(i, Swap(Answers))] + []);
    RunStep(key, w3, i, BeginConfirm, [(i, CheckConfirm(true))] + ([(i, Swap(Answers))] + []));
    RunStep(key, w2, i, CheckPrefix(true), [(i, BeginConfirm)] + ([(i, CheckConfirm(true))] + ([(i, Swap(Answers))] + [])));
    RunStep(key, w1, i, ReadSnapshot, [(i, CheckPrefix(true))] + ([(i, BeginConfirm)] + ([(i, CheckConfirm(true))] + ([(i, Swap(Answers))] + []))));
    RunStep(key, w, i, Crash, [(i, ReadSnapshot)] + ([(i, CheckPrefix(true))] + ([(i, BeginConfirm)] + ([(i, CheckConfirm(true))] + ([(i, Swap(Answers))] + [])))));
  }

  lemma LoadAlone<B>(key: string, w: World<B>, i: nat)
    requires Safe(key, w) && i < |w.clients|
    ensures var v := Next(key, Next(key, Next(key, w, i, Crash), i, ReadSnapshot), i, CheckPrefix(true));
            v.db == w.db && v.anchor == w.anchor && |v.clients| == |w.clients| && v.clients[i] == Client(false, Loaded(w.db.rows))
  {
    var w2 := Next(key, Next(key, w, i, Crash), i, ReadSnapshot);
    assert w2.clients[i] == Client(false, Loading(w.db.rows));
  }

  lemma ConfirmAlone<B>(key: string, w: World<B>, i: nat)
    requires Safe(key, w) && i < |w.clients| && w.clients[i] == Client(false, Loaded(w.db.rows))
    ensures var v := Next(key, Next(key, Next(key, w, i, BeginConfirm), i, CheckConfirm(true)), i, Swap(Answers));
            v.db == w.db && v.anchor == AnchorOf(w.db.rows) && |v.clients| == |w.clients| && v.clients[i] == Client(false, Anchored(w.db.rows))
  {
    var w1 := Next(key, w, i, BeginConfirm);
    assert w1.clients[i] == Client(false, Confirming(w.db.rows));
    var w2 := Next(key, w1, i, CheckConfirm(true));
    assert w2.clients[i] == Client(false, if w.anchor == AnchorOf(w.db.rows) then Anchored(w.db.rows) else Advancing(w.anchor, w.db.rows));
  }

  /** A restarted client that is left alone for one load and confirm brings the anchor up to the head, from any reachable state. */
  lemma RestartRecovers<B>(key: string, w: World<B>, i: nat)
    requires Safe(key, w) && i < |w.clients|
    ensures var v := RunAll(key, w, Recovery(i));
            v.db == w.db && v.anchor == AnchorOf(w.db.rows) && |v.clients| == |w.clients| && v.clients[i] == Client(false, Anchored(w.db.rows))
  {
    RecoveryRuns(key, w, i);
    LoadAlone(key, w, i);
    ConfirmAlone(key, Next(key, Next(key, Next(key, w, i, Crash), i, ReadSnapshot), i, CheckPrefix(true)), i);
  }

  // ---------- A call left alone is the call of the object ----------

  function AppendCall<B>(i: nat, expected: Digest<B>, body: B, at: int, up: bool, fate: Fate): seq<(nat, Act<B>)> {
    [(i, BeginAppend(expected, body, at))] + ([(i, CheckAnchor(up))] + ([(i, CommitRow)] + ([(i, Swap(fate))] + [])))
  }

  /** Either the row was checked and the lock taken, or nothing happened. */
  lemma AppendBegins<B>(key: string, w: World<B>, i: nat, expected: Digest<B>, body: B, at: int, up: bool)
    requires Safe(key, w) && i < |w.clients| && Waiting(w.clients[i]) && w.lock.None?
    ensures var v := DoCheckAnchor(DoBeginAppend(key, w, i, expected, body, at), i, up);
            && v.db == w.db && v.anchor == w.anchor && |v.clients| == |w.clients|
            && (if Appendable(key, w.db.state, expected, at) && up && w.anchor == AnchorOf(w.db.rows)
                then v.clients[i] == Client(false, Ready(w.db.state, body, at)) && v.lock == Some(i)
                else !v.clients[i].task.Ready? && !v.clients[i].task.Advancing? && v.lock.None?)
  {
    var v := DoBeginAppend(key, w, i, expected, body, at);
    assert v == w || v.clients[i].task == Writing(w.db.state, body, at);
  }

  lemma AppendEnds<B>(key: string, w: World<B>, i: nat, fate: Fate)
    requires Safe(key, w) && i < |w.clients|
    ensures var v := DoSwap(DoCommitRow(key, w, i), i, fate); var task := w.clients[i].task;
            && (task.Ready? && task.row == w.db.state && w.anchor == AnchorOf(w.db.rows) ==>
                && v.db == Appended(key, w.db, task.body, task.at) && |v.clients| == |w.clients|
                && v.anchor == (if fate == Unreachable then w.anchor else AnchorOf(v.db.rows))
                && v.clients[i] == if fate == Answers then w.clients[i].(task := Anchored(v.db.rows)) else Client(true, Idle))
            && (!task.Ready? && !task.Advancing? ==> v == w)
  {
  }

  lemma AppendRuns<B>(key: string, w: World<B>, i: nat, expected: Digest<B>, body: B, at: int, up: bool, fate: Fate)
    requires i < |w.clients|
    ensures var w2 := DoCheckAnchor(DoBeginAppend(key, w, i, expected, body, at), i, up);
            RunAll(key, w, AppendCall(i, expected, body, at, up, fate)) == DoSwap(DoCommitRow(key, w2, i), i, fate)
  {
    var w1 := Next(key, w, i, BeginAppend(expected, body, at));
    var w2 := Next(key, w1, i, CheckAnchor(up));
    var w3 := Next(key, w2, i, CommitRow);
    RunStep(key, w3, i, Swap(fate), []);
    RunStep(key, w2, i, CommitRow, [(i, Swap(fate))] + []);
    RunStep(key, w1, i, CheckAnchor(up), [(i, CommitRow)] + ([(i, Swap(fate))] + []));
    RunStep(key, w, i, BeginAppend(expected, body, at), [(i, CheckAnchor(up))] + ([(i, CommitRow)] + ([(i, Swap(fate))] + [])));
  }

  /** An append that nobody interrupts has the effect that `ApprovalLedger.Append` promises, its half-done outcome included. */
  lemma AppendAlone<B>(key: string, w: World<B>, i: nat, expected: Digest<B>, body: B, at: int, up: bool, fate: Fate)
    requires Safe(key, w) && i < |w.clients| && Waiting(w.clients[i]) && w.lock.None?
    ensures var v := RunAll(key, w, AppendCall(i, expected, body, at, up, fate));
            if Appendable(key, w.db.state, expected, at) && up && w.anchor == AnchorOf(w.db.rows)
            then && v.db == Appended(key, w.db, body, at) && |v.clients| == |w.clients|
                 && v.anchor == (if fate == Unreachable then w.anchor else AnchorOf(v.db.rows))
                 && v.clients[i] == if fate == Answers then Client(false, Anchored(v.db.rows)) else Client(true, Idle)
            else v.db == w.db && v.anchor == w.anchor && v.lock.None?
  {
    AppendRuns(key, w, i, expected, body, at, up, fate);
    AppendBegins(key, w, i, expected, body, at, up);
    AppendEnds(key, DoCheckAnchor(DoBeginAppend(key, w, i, expected, body, at), i, up), i, fate);
  }

  /** A new client starts healthy and idle; an aborted or crashed one lets go of the lock, and a crash also heals it. */
  lemma ClientsComeAndGo<B>(key: string, w: World<B>, i: nat)
    ensures Next(key, w, i, Join) == w.(clients := w.clients + [Client(false, Idle)])
    ensures i < |w.clients| ==>
      var v := Next(key, w, i, Crash);
      v.db == w.db && v.anchor == w.anchor && v.lock != Some(i) && v.clients == w.clients[i := Client(false, Idle)]
    ensures i < |w.clients| ==>
      var v := Next(key, w, i, Abort);
      v.db == w.db && v.anchor == w.anchor && v.lock != Some(i) && v.clients == w.clients[i := Client(w.clients[i].poisoned, Idle)]
  {
  }

  /** On a new ledger the first append of the first client lands and is anchored. */
  lemma FirstAppendLands<B>(key: string, body: B, at: int)
    ensures var w := RunAll(key, Next(key, Start<B>(key), 0, Join), AppendCall(0, Zero, body, at, true, Answers));
            && |w.db.rows| == 1 && w.db.rows[0].body == body && w.db.rows[0].at == at && w.anchor == AnchorOf(w.db.rows)
            && |w.clients| == 1 && w.clients[0] == Client(false, Anchored(w.db.rows))
  {
    AppendAlone(key, Next(key, Start<B>(key), 0, Join), 0, Zero, body, at, true, Answers);
  }
}
