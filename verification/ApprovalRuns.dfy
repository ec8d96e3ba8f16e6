/**
 Whole runs of the approval lifecycle: every operation writes only events that replay accepts,
 replay rebuilds the memory that was kept incrementally, and what the rejection fences guarantee.
 */
module ApprovalRuns {
  import opened Graph
  import opened Approval
  import L = Ledger

  // ---------- What replayed memory satisfies ----------

  ghost predicate RecordAt(m: Memory, id: RequestId, last: Option<int>) {
    id in m.records ==>
      var r := m.records[id];
      && WfRecord(r) && r.request.id == id
      && last.Some? && EvidenceTime(r) <= last.value
      && r.request.operationKey in m.operations && m.operations[r.request.operationKey] == id
      && r.request.subject in m.subjects && (r.state != Expired ==> m.subjects[r.request.subject] == id)
      && (r.state == Rejected ==> r.request.subject.fence in m.fences && m.fences[r.request.subject.fence] == id)
  }

  ghost predicate SubjectAt(m: Memory, s: Subject) {
    s in m.subjects ==> m.subjects[s] in m.records && m.records[m.subjects[s]].request.subject == s
  }

  ghost predicate OperationAt(m: Memory, k: Id) {
    k in m.operations ==> m.operations[k] in m.records && m.records[m.operations[k]].request.operationKey == k
  }

  ghost predicate FenceAt(m: Memory, f: Id) {
    f in m.fences ==>
      && m.fences[f] in m.records && m.records[m.fences[f]].state == Rejected
      && m.records[m.fences[f]].request.subject.fence == f
  }

  ghost predicate MemoryOk(m: Memory, last: Option<int>) {
    && (forall id :: RecordAt(m, id, last)) && (forall s :: SubjectAt(m, s))
    && (forall k :: OperationAt(m, k)) && (forall f :: FenceAt(m, f))
  }

  lemma AcceptedRecords(m: Memory, last: Option<int>, r: Record, at: int, id: RequestId)
    requires MemoryOk(m, last) && Accepts(m, r, at) && Timely(last, at)
    ensures RecordAt(Remember(m, r), id, Some(at))
  {
    var q := r.request;
    assert RecordAt(m, id, last) && RecordAt(m, q.id, last) && SubjectAt(m, q.subject) && OperationAt(m, q.operationKey);
    if id in m.records && id != q.id {
      var x := m.records[id];
      assert RecordAt(m, m.subjects[x.request.subject], last);
    }
  }

  /** Accepting one more snapshot keeps the memory consistent. */
  lemma AcceptedKeeps(m: Memory, last: Option<int>, r: Record, at: int)
    requires MemoryOk(m, last) && Accepts(m, r, at) && Timely(last, at)
    ensures MemoryOk(Remember(m, r), Some(at))
  {
    var n := Remember(m, r);
    forall id ensures RecordAt(n, id, Some(at)) { AcceptedRecords(m, last, r, at, id); }
    forall s ensures SubjectAt(n, s) { assert SubjectAt(m, s) && RecordAt(m, r.request.id, last); }
    forall k ensures OperationAt(n, k) { assert OperationAt(m, k) && RecordAt(m, r.request.id, last); }
    forall f ensures FenceAt(n, f) { assert FenceAt(m, f); }
  }

  /** Any sealed chain that replays at all rebuilds a consistent memory. */
  lemma {:induction false} ReplayedMemoryOk(key: string, rows: seq<L.Event<Entry>>)
    requires L.Chain(key, rows) && Replay(rows).Some?
    ensures MemoryOk(Replay(rows).value, L.LastAt(rows))
  {
    if rows != [] {
      var n := |rows| - 1;
      L.ChainPrefix(key, rows, n);
      ReplayedMemoryOk(key, rows[..n]);
      assert L.Linked(key, rows, n);
      AcceptedKeeps(Replay(rows[..n]).value, L.LastAt(rows[..n]), rows[n].body.record, rows[n].at);
    }
  }

  // ---------- Every planned event is accepted ----------

  /** Both the checks of persisting and the checks of replay pass. */
  ghost predicate Lands(m: Memory, r: Record, at: int) { Persistable(m, r) && Accepts(m, r, at) }

  ghost predicate AllLand(m: Memory, rs: seq<Record>, at: int)
    decreases |rs|
  {
    rs == [] || (Lands(m, rs[0], at) && AllLand(Remember(m, rs[0]), rs[1..], at))
  }

  lemma OneLands(m: Memory, r: Record, at: int)
    requires Lands(m, r, at)
    ensures AllLand(m, [r], at)
  {
    assert [r][1..] == [];
  }

  /** An update of a known record needs no more than its own transition. */
  lemma UpdateLands(m: Memory, last: Option<int>, p: Record, r: Record, at: int)
    requires MemoryOk(m, last) && p.request.id in m.records && m.records[p.request.id] == p
    requires WfRecord(r) && TransitionOk(p, r) && TimeOk(Some(p), r, at)
    requires r.state == Rejected ==> !Fenced(m, p.request)
    ensures Lands(m, r, at)
  {
    assert RecordAt(m, p.request.id, last);
  }

  lemma ExpiryLands(m: Memory, last: Option<int>, id: RequestId, now: int)
    requires MemoryOk(m, last) && id in m.records
    ensures AllLand(m, Changed(m.records[id], Expire(m.records[id], now)), now)
  {
    var p := m.records[id];
    var x := Expire(p, now);
    assert RecordAt(m, id, last);
    if x != p {
      UpdateLands(m, last, p, x, now);
      OneLands(m, x, now);
    }
  }

  lemma NewRequestLands(m: Memory, last: Option<int>, s: Subject, k: Id, at: int, expiresAt: int)
    requires MemoryOk(m, last) && k !in m.operations && at < expiresAt && SubjectFree(m, s)
    ensures Lands(m, Record(NewRequest(s, k, at, expiresAt), Requested, 0, None, None, None, None), at)
  {
    assert RecordAt(m, RequestId(s, at, expiresAt, k), last);
  }

  lemma RequestLands(m: Memory, last: Option<int>, s: Subject, k: Id, expiresAt: int, v: Env)
    requires MemoryOk(m, last) && Timely(last, v.now)
    ensures var p := PlanRequest(m, s, k, expiresAt, v); AllLand(m, p.appends, p.at)
  {
    var plan := PlanRequest(m, s, k, expiresAt, v);
    assert SubjectAt(m, s);
    if plan.appends != [] {
      var r := Record(NewRequest(s, k, v.later, expiresAt), Requested, 0, None, None, None, None);
      if s !in m.subjects {
        NewRequestLands(m, last, s, k, v.later, expiresAt);
        OneLands(m, r, v.later);
      } else {
        ExpiryLands(m, last, m.subjects[s], v.later);
        if plan.outcome.Succeeded? {
          RequestAfterExpiry(m, last, s, k, expiresAt, v.later);
        }
      }
    }
  }

  lemma RequestAfterExpiry(m: Memory, last: Option<int>, s: Subject, k: Id, expiresAt: int, at: int)
    requires MemoryOk(m, last) && Timely(last, at)
    requires k !in m.operations && at < expiresAt && s in m.subjects && m.subjects[s] in m.records
    requires Expire(m.records[m.subjects[s]], at).state == Expired
    ensures var p := m.records[m.subjects[s]];
            AllLand(m, Changed(p, Expire(p, at)) + [Record(NewRequest(s, k, at, expiresAt), Requested, 0, None, None, None, None)], at)
  {
    var p := m.records[m.subjects[s]];
    var x := Expire(p, at);
    var r := Record(NewRequest(s, k, at, expiresAt), Requested, 0, None, None, None, None);
    assert RecordAt(m, m.subjects[s], last) && SubjectAt(m, s);
    if x == p {
      NewRequestLands(m, last, s, k, at, expiresAt);
      OneLands(m, r, at);
      assert Changed(p, x) + [r] == [r];
    } else {
      UpdateLands(m, last, p, x, at);
      AcceptedKeeps(m, last, x, at);
      var n := Remember(m, x);
      assert k !in n.operations;
      NewRequestLands(n, Some(at), s, k, at, expiresAt);
      OneLands(n, r, at);
      assert Changed(p, x) + [r] == [x, r] && [x, r][1..] == [r];
    }
  }

  /** The clock has reached `now` and has not run behind the last event. */
  ghost predicate Timely(last: Option<int>, now: int) { last.Some? ==> last.value <= now }

  lemma DecideLands(m: Memory, last: Option<int>, c: Call, v: Env)
    requires c.Decide? && MemoryOk(m, last) && Timely(last, v.now)
    ensures var p := PlanDecide(m, c, v); AllLand(m, p.appends, p.at)
  {
    if c.request.id in m.records {
      var p := m.records[c.request.id];
      ExpiryLands(m, last, c.request.id, v.now);
      ExpiryLands(m, last, c.request.id, v.later);
      assert RecordAt(m, c.request.id, last);
      var live := DecideLive(m, p, c, v);
      if live.appends != [] && Expire(p, v.later).state != Expired && v.now <= v.later && Expire(p, v.now).state != Expired && p.request == c.request {
        DecisionLands(m, last, p, c, v);
      }
    }
  }

  lemma DecisionLands(m: Memory, last: Option<int>, p: Record, c: Call, v: Env)
    requires c.Decide? && MemoryOk(m, last) && c.request.id in m.records && m.records[c.request.id] == p && p.request == c.request
    requires Expire(p, v.later).state != Expired && DecideLive(m, p, c, v).appends != []
    requires p.request.requestedAt <= v.later
    ensures AllLand(m, DecideLive(m, p, c, v).appends, v.later)
  {
    assert RecordAt(m, c.request.id, last);
    var r := DecideLive(m, p, c, v).appends[0];
    UpdateLands(m, last, p, r, v.later);
    OneLands(m, r, v.later);
  }

  lemma AuthorizationLands(m: Memory, last: Option<int>, p: Record, c: Call, v: Env)
    requires c.Authorize? && MemoryOk(m, last) && c.approval.requestId in m.records && m.records[c.approval.requestId] == p
    requires p.approval == Some(c.approval) && Timely(last, v.later)
    requires Expire(p, v.later).state != Expired && AuthorizeLive(p, c, v).appends != []
    ensures AllLand(m, AuthorizeLive(p, c, v).appends, v.later)
  {
    assert RecordAt(m, c.approval.requestId, last);
    var r := AuthorizeLive(p, c, v).appends[0];
    UpdateLands(m, last, p, r, v.later);
    OneLands(m, r, v.later);
  }

  lemma AuthorizeLands(m: Memory, last: Option<int>, c: Call, v: Env)
    requires c.Authorize? && MemoryOk(m, last) && Timely(last, v.now)
    ensures var p := PlanAuthorize(m, c, v); AllLand(m, p.appends, p.at)
  {
    if c.approval.requestId in m.records {
      var p := m.records[c.approval.requestId];
      ExpiryLands(m, last, c.approval.requestId, v.now);
      ExpiryLands(m, last, c.approval.requestId, v.later);
      if AuthorizeLive(p, c, v).appends != [] && Expire(p, v.later).state != Expired && v.now <= v.later && p.approval == Some(c.approval) {
        AuthorizationLands(m, last, p, c, v);
      }
    }
  }

  lemma ValidateLands(m: Memory, last: Option<int>, c: Call, v: Env)
    requires c.Validate? && MemoryOk(m, last)
    ensures var p := PlanValidate(m, c, v); AllLand(m, p.appends, p.at)
  {
    if c.authorization.requestId in m.records {
      ExpiryLands(m, last, c.authorization.requestId, v.now);
      ExpiryLands(m, last, c.authorization.requestId, v.later);
    }
  }

  lemma InvalidateLands(m: Memory, last: Option<int>, c: Call, v: Env)
    requires c.Invalidate? && MemoryOk(m, last) && Timely(last, v.now)
    ensures var p := PlanInvalidate(m, c, v); AllLand(m, p.appends, p.at)
  {
    var plan := PlanInvalidate(m, c, v);
    if c.requestId in m.records {
      var p := m.records[c.requestId];
      assert RecordAt(m, c.requestId, last);
      ExpiryLands(m, last, c.requestId, v.later);
      if plan.outcome.Succeeded? {
        UpdateLands(m, last, p, plan.appends[0], v.later);
        OneLands(m, plan.appends[0], v.later);
      }
    }
  }

  /** Every operation plans only events that persisting and replay both accept, in order. */
  lemma PlanLands(m: Memory, last: Option<int>, c: Call, v: Env)
    requires MemoryOk(m, last) && Timely(last, v.now)
    ensures var p := PlanOf(m, c, v); AllLand(m, p.appends, p.at)
  {
    match c
    case RequestApproval(s, k, e) => RequestLands(m, last, s, k, e, v);
    case Decide(_, _, _, _, _) => DecideLands(m, last, c, v);
    case Authorize(_, _, _) => AuthorizeLands(m, last, c, v);
    case Validate(_, _) => ValidateLands(m, last, c, v);
    case Invalidate(_, _, _, _) => InvalidateLands(m, last, c, v);
    case GetStatus(id) => if id in m.records { ExpiryLands(m, last, id, v.now); }
  }

  lemma PlanTime(m: Memory, c: Call, v: Env)
    ensures var p := PlanOf(m, c, v); p.at == v.now || (p.at == v.later && v.now <= v.later)
  {
  }

  // ---------- Runs ----------

  /**
   One operation as the ledger sees it: the caller's clock stood at `own` before it, and its
   first `landed` events were committed.  A crash, a lost race for the head or a lost reply cut
   an operation short after any number of its events.
   */
  datatype Act = Act(call: Call, env: Env, own: Option<int>, landed: nat)

  ghost function LandAll(key: string, db: L.Database<Entry>, rs: seq<Record>, at: int): L.Database<Entry>
    decreases |rs|
  {
    if rs == [] then db else LandAll(key, L.Appended(key, db, EntryOf(rs[0]), at), rs[1..], at)
  }

  function Cut(rs: seq<Record>, n: nat): seq<Record> { if n <= |rs| then rs[..n] else rs }

  /** The clock a caller compares its first reading with, once it has reloaded. */
  function ClockAfterLoad(own: Option<int>, last: Option<int>): Option<int> {
    if last.Some? && (own.None? || own.value < last.value) then last else own
  }

  predicate Starts(db: L.Database<Entry>, a: Act) {
    var clock := ClockAfterLoad(a.own, L.LastAt(db.rows));
    (clock.Some? ==> clock.value <= a.env.now) && Replay(db.rows).Some?
  }

  ghost function After(key: string, db: L.Database<Entry>, a: Act): L.Database<Entry> {
    if !Starts(db, a) then db
    else
      var plan := PlanOf(Replay(db.rows).value, a.call, a.env);
      LandAll(key, db, Cut(plan.appends, a.landed), plan.at)
  }

  ghost function AfterAll(key: string, db: L.Database<Entry>, acts: seq<Act>): L.Database<Entry>
    decreases |acts|
  {
    if acts == [] then db else AfterAll(key, After(key, db, acts[0]), acts[1..])
  }

  ghost predicate HistoryOk(key: string, db: L.Database<Entry>) {
    L.Intact(key, db) && Replay(db.rows).Some?
  }

  function NewLedger(key: string): L.Database<Entry> { L.Database([], L.StateOf(key, [])) }

  lemma ReplayAppended(key: string, db: L.Database<Entry>, m: Memory, r: Record, at: int)
    requires HistoryOk(key, db) && Replay(db.rows) == Some(m) && Accepts(m, r, at) && Timely(L.LastAt(db.rows), at)
    ensures var db' := L.Appended(key, db, EntryOf(r), at);
            HistoryOk(key, db') && Replay(db'.rows) == Some(Remember(m, r)) && L.LastAt(db'.rows) == Some(at)
  {
    L.AppendedIntact(key, db, EntryOf(r), at);
    var db' := L.Appended(key, db, EntryOf(r), at);
    assert db'.rows[..|db'.rows| - 1] == db.rows;
  }

  ghost function RememberAll(m: Memory, rs: seq<Record>): Memory
    decreases |rs|
  {
    if rs == [] then m else RememberAll(Remember(m, rs[0]), rs[1..])
  }

  /** What the incremental updates hold after landing these records is what replay rebuilds. */
  lemma {:induction false} LandReplays(key: string, db: L.Database<Entry>, m: Memory, rs: seq<Record>, at: int)
    requires HistoryOk(key, db) && Replay(db.rows) == Some(m) && AllLand(m, rs, at) && Timely(L.LastAt(db.rows), at)
    ensures var db' := LandAll(key, db, rs, at);
            HistoryOk(key, db') && Replay(db'.rows) == Some(RememberAll(m, rs)) && db.rows <= db'.rows
    decreases |rs|
  {
    if rs != [] {
      ReplayAppended(key, db, m, rs[0], at);
      LandReplays(key, L.Appended(key, db, EntryOf(rs[0]), at), Remember(m, rs[0]), rs[1..], at);
    }
  }

  lemma {:induction false} CutLands(m: Memory, rs: seq<Record>, n: nat, at: int)
    requires AllLand(m, rs, at)
    ensures AllLand(m, Cut(rs, n), at)
    decreases |rs|
  {
    if rs != [] && 0 < n <= |rs| {
      CutLands(Remember(m, rs[0]), rs[1..], n - 1, at);
      assert Cut(rs, n)[1..] == Cut(rs[1..], n - 1);
    }
  }

  /** One operation, complete or cut short, leaves a history that replays to the memory its updates built. */
  lemma ActKeeps(key: string, db: L.Database<Entry>, a: Act)
    requires HistoryOk(key, db)
    ensures HistoryOk(key, After(key, db, a)) && db.rows <= After(key, db, a).rows
    ensures Starts(db, a) ==>
      var m := Replay(db.rows).value;
      Replay(After(key, db, a).rows) == Some(RememberAll(m, Cut(PlanOf(m, a.call, a.env).appends, a.landed)))
  {
    if Starts(db, a) {
      var m := Replay(db.rows).value;
      var plan := PlanOf(m, a.call, a.env);
      ReplayedMemoryOk(key, db.rows);
      PlanLands(m, L.LastAt(db.rows), a.call, a.env);
      PlanTime(m, a.call, a.env);
      CutLands(m, plan.appends, a.landed, plan.at);
      LandReplays(key, db, m, Cut(plan.appends, a.landed), plan.at);
    }
  }

  lemma {:induction false} RunKeeps(key: string, db: L.Database<Entry>, acts: seq<Act>)
    requires HistoryOk(key, db)
    ensures HistoryOk(key, AfterAll(key, db, acts)) && db.rows <= AfterAll(key, db, acts).rows
    decreases |acts|
  {
    if acts != [] {
      ActKeeps(key, db, acts[0]);
      RunKeeps(key, After(key, db, acts[0]), acts[1..]);
    }
  }

  /** Every run of operations, crashes included, writes a history that replay accepts, with a consistent memory. */
  lemma EveryRunReplays(key: string, acts: seq<Act>)
    ensures var db := AfterAll(key, NewLedger(key), acts);
            L.Intact(key, db) && Replay(db.rows).Some? && MemoryOk(Replay(db.rows).value, L.LastAt(db.rows))
  {
    RunKeeps(key, NewLedger(key), acts);
    ReplayedMemoryOk(key, AfterAll(key, NewLedger(key), acts).rows);
  }
}
