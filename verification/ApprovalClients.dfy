/**
 Several approval contracts on one ledger: the steps of the ledger protocol, interleaved and
 interrupted in any way, where each client appends only what an operation planned from the
 history it replayed (backend/import_approval/contract.py:2058-2250, ledger.py:370-481).
 */
module ApprovalClients {
  import opened Graph
  import opened Approval
  import opened ApprovalRuns
  import opened ApprovalFences
  import L = Ledger
  import R = LedgerRuns

  // ---------- What a client may append ----------

  /** Operation `c`, started from the replay of `db`, has written its first `n` events, and the next is `body`. */
  ghost predicate PlannedBy(key: string, rows: seq<L.Event<Entry>>, body: Entry, at: int, db: L.Database<Entry>, c: Call, v: Env, n: nat) {
    && HistoryOk(key, db) && Timely(L.LastAt(db.rows), v.now)
    && var plan := PlanOf(Replay(db.rows).value, c, v);
       && n < |plan.appends| && rows == LandAll(key, db, plan.appends[..n], plan.at).rows
       && body == EntryOf(plan.appends[n]) && at == plan.at
  }

  ghost predicate Planned(key: string, rows: seq<L.Event<Entry>>, body: Entry, at: int) {
    exists db, c, v, n: nat :: PlannedBy(key, rows, body, at, db, c, v, n)
  }

  /** The client expects the head of the history its operation was planned on. */
  ghost predicate Disciplined(key: string, act: R.Act<Entry>) {
    act.BeginAppend? ==> exists rows :: L.Head(rows) == act.expected && L.Chain(key, rows) && Planned(key, rows, act.body, act.at)
  }

  lemma {:induction false} NthLands(m: Memory, rs: seq<Record>, n: nat, at: int)
    requires AllLand(m, rs, at) && n < |rs|
    ensures Lands(RememberAll(m, rs[..n]), rs[n], at)
    decreases n
  {
    if n > 0 {
      NthLands(Remember(m, rs[0]), rs[1..], n - 1, at);
      assert rs[..n][0] == rs[0] && rs[..n][1..] == rs[1..][..n - 1];
    }
  }

  lemma PlannedLands(key: string, rows: seq<L.Event<Entry>>, body: Entry, at: int)
    requires Planned(key, rows, body, at)
    ensures Fits(rows, body, at)
  {
    var db, c, v, n: nat :| PlannedBy(key, rows, body, at, db, c, v, n);
    var m := Replay(db.rows).value;
    var plan := PlanOf(m, c, v);
    ReplayedMemoryOk(key, db.rows);
    PlanLands(m, L.LastAt(db.rows), c, v);
    PlanTime(m, c, v);
    CutLands(m, plan.appends, n, plan.at);
    assert Cut(plan.appends, n) == plan.appends[..n];
    LandReplays(key, db, m, plan.appends[..n], plan.at);
    NthLands(m, plan.appends, n, plan.at);
  }

  // ---------- Interleaved runs ----------

  /** The event may follow these rows. */
  ghost predicate Fits(rows: seq<L.Event<Entry>>, body: Entry, at: int) {
    Replay(rows).Some? && body == EntryOf(body.record) && Lands(Replay(rows).value, body.record, at)
  }

  ghost predicate TaskFits(rows: seq<L.Event<Entry>>, task: R.Task<Entry>) {
    match task
    case Writing(_, body, at) => Fits(rows, body, at)
    case Ready(_, body, at) => Fits(rows, body, at)
    case _ => true
  }

  ghost predicate ClientsOk(key: string, w: R.World<Entry>) {
    && R.WorldOk(key, w) && Replay(w.db.rows).Some?
    && forall j: nat :: j < |w.clients| ==> TaskFits(w.db.rows, w.clients[j].task)
  }

  /** A client that gets as far as locking the database planned on exactly the present history. */
  lemma BeginFits(key: string, w: R.World<Entry>, i: nat, act: R.Act<Entry>)
    requires L.Intact(key, w.db) && i < |w.clients| && act.BeginAppend? && Disciplined(key, act)
    ensures var v := R.Next(key, w, i, act); v == w || Fits(w.db.rows, act.body, act.at)
  {
    var rows :| L.Head(rows) == act.expected && L.Chain(key, rows) && Planned(key, rows, act.body, act.at);
    PlannedLands(key, rows, act.body, act.at);
    if w.db.state.digest == act.expected {
      L.HeadDeterminesChain(key, rows, w.db.rows);
    }
  }

  lemma CommitFits(key: string, w: R.World<Entry>, i: nat)
    requires L.Intact(key, w.db) && i < |w.clients| && w.clients[i].task.Ready? && R.TaskOk(w, i, w.clients[i].task)
    requires TaskFits(w.db.rows, w.clients[i].task)
    ensures var v := R.DoCommitRow(key, w, i);
            && Replay(v.db.rows).Some? && Evolves(Replay(w.db.rows).value, Replay(v.db.rows).value)
  {
    var t := w.clients[i].task;
    var m := Replay(w.db.rows).value;
    ReplayAppended(key, w.db, m, t.body.record, t.at);
    LandEvolves(m, t.body.record, t.at);
  }

  lemma EvolvesSame(m: Memory)
    ensures Evolves(m, m)
  {
  }

  /** A step that does not commit a row leaves the database and the other clients' plans alone. */
  lemma OtherStepFits(key: string, w: R.World<Entry>, i: nat, act: R.Act<Entry>)
    requires L.Intact(key, w.db) && i < |w.clients| && !act.Join? && !act.CommitRow? && Disciplined(key, act)
    requires TaskFits(w.db.rows, w.clients[i].task)
    ensures var v := R.Next(key, w, i, act);
            && v.db == w.db && |v.clients| == |w.clients| && TaskFits(w.db.rows, v.clients[i].task)
            && forall j: nat :: j < |w.clients| && j != i ==> v.clients[j] == w.clients[j]
  {
    if act.BeginAppend? { BeginFits(key, w, i, act); }
  }

  lemma CommitStepFits(key: string, w: R.World<Entry>, i: nat, j: nat)
    requires R.WorldOk(key, w) && i < |w.clients| && w.clients[i].task.Ready? && j < |w.clients|
    ensures var v := R.DoCommitRow(key, w, i);
            |v.clients| == |w.clients| && !v.clients[j].task.Writing? && !v.clients[j].task.Ready?
  {
    assert R.TaskOk(w, i, w.clients[i].task) && R.TaskOk(w, j, w.clients[j].task);
  }

  lemma StepFits(key: string, w: R.World<Entry>, i: nat, act: R.Act<Entry>)
    requires ClientsOk(key, w) && Disciplined(key, act)
    ensures var v := R.Next(key, w, i, act); ClientsOk(key, v) && Evolves(Replay(w.db.rows).value, Replay(v.db.rows).value)
  {
    var v := R.Next(key, w, i, act);
    R.StepKeeps(key, w, i, act);
    EvolvesSame(Replay(w.db.rows).value);
    if i < |w.clients| && !act.Join? {
      if act.CommitRow? && w.clients[i].task.Ready? {
        assert R.TaskOk(w, i, w.clients[i].task);
        CommitFits(key, w, i);
        forall j: nat | j < |v.clients| ensures TaskFits(v.db.rows, v.clients[j].task) { CommitStepFits(key, w, i, j); }
      } else if !act.CommitRow? {
        OtherStepFits(key, w, i, act);
      }
    }
  }

  lemma {:induction false} RunFits(key: string, w: R.World<Entry>, acts: seq<(nat, R.Act<Entry>)>)
    requires ClientsOk(key, w) && forall k :: 0 <= k < |acts| ==> Disciplined(key, acts[k].1)
    ensures var v := R.RunAll(key, w, acts); ClientsOk(key, v) && Evolves(Replay(w.db.rows).value, Replay(v.db.rows).value)
    decreases |acts|
  {
    if acts == [] {
      EvolvesSame(Replay(w.db.rows).value);
    } else {
      var u := R.Next(key, w, acts[0].0, acts[0].1);
      StepFits(key, w, acts[0].0, acts[0].1);
      RunFits(key, u, acts[1..]);
      EvolvesTransitive(Replay(w.db.rows).value, Replay(u.db.rows).value, Replay(R.RunAll(key, w, acts).db.rows).value);
    }
  }

  /**
   In every interleaving of any number of contracts, with crashes, lost races and lost replies
   anywhere: the ledger is intact, its history replays to a consistent memory, and the anchor is safe.
   */
  lemma EveryInterleavingReplays(key: string, acts: seq<(nat, R.Act<Entry>)>)
    requires forall k :: 0 <= k < |acts| ==> Disciplined(key, acts[k].1)
    ensures var w := R.RunAll(key, R.Start<Entry>(key), acts);
            ClientsOk(key, w) && HistoryOk(key, w.db) && MemoryOk(Replay(w.db.rows).value, L.LastAt(w.db.rows))
  {
    var s := R.Start<Entry>(key);
    R.StartOk<Entry>(key);
    RunFits(key, s, acts);
    ReplayedMemoryOk(key, R.RunAll(key, s, acts).db.rows);
  }

  /** A rejection fence, once held in such a run, is held in every continuation, and blocks as it does in serial runs. */
  lemma RejectionHoldsAcrossClients(key: string, before: seq<(nat, R.Act<Entry>)>, after: seq<(nat, R.Act<Entry>)>, f: Id, c: Call, v: Env)
    requires forall k :: 0 <= k < |before| ==> Disciplined(key, before[k].1)
    requires forall k :: 0 <= k < |after| ==> Disciplined(key, after[k].1)
    requires var m := Replay(R.RunAll(key, R.Start<Entry>(key), before).db.rows); m.Some? && f in m.value.fences
    requires Guarded(c)
    ensures var w := R.RunAll(key, R.Start<Entry>(key), before);
            var m, n := Replay(w.db.rows).value, Replay(R.RunAll(key, w, after).db.rows);
            && n.Some? && f in n.value.fences && n.value.fences[f] == m.fences[f]
            && (FenceOf(n.value, c) == Some(f) && NamedRequest(c) != Some(m.fences[f]) ==>
                && (PlanOf(n.value, c, v).outcome.Succeeded? <==> ReadingsOk(v) && AnsweredBefore(n.value, c, v))
                && (PlanOf(n.value, c, v).outcome.Succeeded? ==> PlanOf(n.value, c, v).appends == []))
  {
    EveryInterleavingReplays(key, before);
    var w := R.RunAll(key, R.Start<Entry>(key), before);
    RunFits(key, w, after);
    var end := R.RunAll(key, w, after).db;
    ReplayedMemoryOk(key, end.rows);
    HeldFenceBlocks(Replay(end.rows).value, L.LastAt(end.rows), c, v, f);
  }
}
