/**
 What the approval lifecycle guarantees over whole runs (backend/import_approval/contract.py:385-430,
 486, 587, 722, 1906-1917): one live request per subject, one rejection per generation fence, and
 exactly how far a rejection blocks other requests with its fence.
 */
module ApprovalFences {
  import opened Graph
  import opened Approval
  import opened ApprovalRuns
  import L = Ledger

  predicate Terminal(s: State) { s == Rejected || s == Expired || s == Invalidated }

  /** How one record may differ later: it stays, keeps its evidence, and a finished one never changes. */
  ghost predicate Later(p: Record, r: Record) {
    && r.request == p.request && p.generation <= r.generation
    && (p.approval.Some? ==> r.approval == p.approval) && (p.authorization.Some? ==> r.authorization == p.authorization)
    && (Terminal(p.state) ==> r == p)
  }

  ghost predicate Evolves(m: Memory, n: Memory) {
    && (forall id :: id in m.records ==> id in n.records && Later(m.records[id], n.records[id]))
    && (forall k :: k in m.operations ==> k in n.operations && n.operations[k] == m.operations[k])
    && (forall f :: f in m.fences ==> f in n.fences && n.fences[f] == m.fences[f])
  }

  lemma LandEvolves(m: Memory, r: Record, at: int)
    requires Lands(m, r, at)
    ensures Evolves(m, Remember(m, r))
  {
  }

  lemma {:induction false} AllLandEvolves(m: Memory, rs: seq<Record>, at: int)
    requires AllLand(m, rs, at)
    ensures Evolves(m, RememberAll(m, rs))
    decreases |rs|
  {
    if rs != [] {
      LandEvolves(m, rs[0], at);
      AllLandEvolves(Remember(m, rs[0]), rs[1..], at);
      EvolvesTransitive(m, Remember(m, rs[0]), RememberAll(m, rs));
    }
  }

  lemma EvolvesTransitive(m: Memory, n: Memory, o: Memory)
    requires Evolves(m, n) && Evolves(n, o)
    ensures Evolves(m, o)
  {
    forall id | id in m.records ensures id in o.records && Later(m.records[id], o.records[id]) {
      assert Later(m.records[id], n.records[id]) && Later(n.records[id], o.records[id]);
    }
  }

  lemma PlanEvolves(m: Memory, last: Option<int>, c: Call, v: Env, n: nat)
    requires MemoryOk(m, last) && Timely(last, v.now)
    ensures Evolves(m, RememberAll(m, Cut(PlanOf(m, c, v).appends, n)))
  {
    PlanLands(m, last, c, v);
    CutLands(m, PlanOf(m, c, v).appends, n, PlanOf(m, c, v).at);
    AllLandEvolves(m, Cut(PlanOf(m, c, v).appends, n), PlanOf(m, c, v).at);
  }

  lemma ActEvolves(key: string, db: L.Database<Entry>, a: Act)
    requires HistoryOk(key, db)
    ensures HistoryOk(key, After(key, db, a)) && Evolves(Replay(db.rows).value, Replay(After(key, db, a).rows).value)
  {
    ActKeeps(key, db, a);
    if Starts(db, a) {
      ReplayedMemoryOk(key, db.rows);
      PlanEvolves(Replay(db.rows).value, L.LastAt(db.rows), a.call, a.env, a.landed);
    }
  }

  /** Over every run records, operation keys and fences only evolve; finished lifecycles stay as they are. */
  lemma {:induction false} RunEvolves(key: string, db: L.Database<Entry>, acts: seq<Act>)
    requires HistoryOk(key, db)
    ensures HistoryOk(key, AfterAll(key, db, acts)) && Evolves(Replay(db.rows).value, Replay(AfterAll(key, db, acts).rows).value)
    decreases |acts|
  {
    if acts != [] {
      var next := After(key, db, acts[0]);
      ActEvolves(key, db, acts[0]);
      RunEvolves(key, next, acts[1..]);
      EvolvesTransitive(Replay(db.rows).value, Replay(next.rows).value, Replay(AfterAll(key, db, acts).rows).value);
    }
  }

  /** In every reachable history: at most one unexpired request per subject and one rejection per fence. */
  lemma OneLivePerSubjectOneRejectionPerFence(key: string, acts: seq<Act>, i: RequestId, j: RequestId)
    requires var m := Replay(AfterAll(key, NewLedger(key), acts).rows);
             m.Some? && i in m.value.records && j in m.value.records && i != j
    ensures var m := Replay(AfterAll(key, NewLedger(key), acts).rows).value;
            var p, q := m.records[i], m.records[j];
            && (p.request.subject == q.request.subject ==> p.state == Expired || q.state == Expired)
            && (p.request.subject.fence == q.request.subject.fence ==> p.state != Rejected || q.state != Rejected)
  {
    EveryRunReplays(key, acts);
    var db := AfterAll(key, NewLedger(key), acts);
    var m := Replay(db.rows).value;
    assert RecordAt(m, i, L.LastAt(db.rows)) && RecordAt(m, j, L.LastAt(db.rows));
  }

  // ---------- The rejection fence ----------

  /** The operations a rejection is meant to stop. */
  predicate Guarded(c: Call) { c.RequestApproval? || c.Decide? || c.Authorize? || c.Validate? }

  predicate ReadingsOk(v: Env) { v.now <= v.later && v.early && v.final }

  /** The answer was recorded before the call, under the very same operation key or decision. */
  predicate AnsweredBefore(m: Memory, c: Call, v: Env) {
    match c
    case RequestApproval(s, k, e) =>
      && k in m.operations && m.operations[k] in m.records && v.later < e
      && m.records[m.operations[k]].request.subject == s && m.records[m.operations[k]].request.expiresAt == e
    case Decide(q, principal, decision, _, reason) =>
      && q.id in m.records && m.records[q.id].request == q && Expire(m.records[q.id], v.later).state != Expired
      && m.records[q.id].approval.Some?
      && var a := m.records[q.id].approval.value; a.decidedBy == principal && a.decision == decision && a.reason == reason
    case _ => false
  }

  /** The generation fence the call is about, as far as the memory knows its request. */
  function FenceOf(m: Memory, c: Call): Option<Id> {
    match c
    case RequestApproval(s, _, _) => Some(s.fence)
    case Decide(q, _, _, _, _) => Some(q.subject.fence)
    case Authorize(a, _, _) => if a.requestId in m.records then Some(m.records[a.requestId].request.subject.fence) else None
    case Validate(z, _) => if z.requestId in m.records then Some(m.records[z.requestId].request.subject.fence) else None
    case _ => None
  }

  /** The request the call names, if it names one. */
  function NamedRequest(c: Call): Option<RequestId> {
    match c
    case Decide(q, _, _, _, _) => Some(q.id)
    case Authorize(a, _, _) => Some(a.requestId)
    case Validate(z, _) => Some(z.requestId)
    case _ => None
  }

  lemma LiveLater(p: Record, now: int, later: int)
    requires now <= later && Expire(p, later).state != Expired
    ensures Expire(p, now).state != Expired
  {
  }

  lemma FencedRequest(m: Memory, c: Call, v: Env)
    requires c.RequestApproval? && c.subject.fence in m.fences
    ensures PlanOf(m, c, v).outcome.Succeeded? <==> ReadingsOk(v) && AnsweredBefore(m, c, v)
  {
  }

  lemma FencedDecision(m: Memory, c: Call, v: Env)
    requires c.Decide? && Fenced(m, c.request)
    ensures PlanOf(m, c, v).outcome.Succeeded? <==> ReadingsOk(v) && AnsweredBefore(m, c, v)
  {
    if c.request.id in m.records && v.now <= v.later && Expire(m.records[c.request.id], v.later).state != Expired {
      LiveLater(m.records[c.request.id], v.now, v.later);
    }
  }

  /**
   With the fence taken by a rejected request, a guarded call about any other request succeeds
   exactly as an idempotent answer to a request or decision that was recorded before, and then
   it writes nothing.  Authorisation and validation never succeed.
   */
  lemma FenceBlocksExactly(m: Memory, c: Call, v: Env, f: Id)
    requires Guarded(c) && FenceOf(m, c) == Some(f) && f in m.fences && NamedRequest(c) != Some(m.fences[f])
    requires c.Authorize? || c.Validate? ==>
      NamedRequest(c).value in m.records && m.records[NamedRequest(c).value].request.id == NamedRequest(c).value
    ensures PlanOf(m, c, v).outcome.Succeeded? <==> ReadingsOk(v) && AnsweredBefore(m, c, v)
    ensures PlanOf(m, c, v).outcome.Succeeded? ==> PlanOf(m, c, v).appends == [] && PlanOf(m, c, v).outcome.retry
  {
    match c
    case RequestApproval(_, _, _) => FencedRequest(m, c, v);
    case Decide(_, _, _, _, _) => FencedDecision(m, c, v);
    case Authorize(_, _, _) =>
    case Validate(_, _) =>
  }

  lemma HeldFenceBlocks(n: Memory, last: Option<int>, c: Call, v: Env, f: Id)
    requires MemoryOk(n, last) && Guarded(c) && f in n.fences
    ensures FenceOf(n, c) == Some(f) && NamedRequest(c) != Some(n.fences[f]) ==>
      && (PlanOf(n, c, v).outcome.Succeeded? <==> ReadingsOk(v) && AnsweredBefore(n, c, v))
      && (PlanOf(n, c, v).outcome.Succeeded? ==> PlanOf(n, c, v).appends == [])
  {
    if FenceOf(n, c) == Some(f) && NamedRequest(c) != Some(n.fences[f]) {
      if NamedRequest(c).Some? { assert RecordAt(n, NamedRequest(c).value, last); }
      FenceBlocksExactly(n, c, v, f);
    }
  }

  /**
   Over every run: once some request holds the fence by its rejection it holds it for good, and every
   later guarded call about another request with that fence is blocked up to idempotent answers.
   */
  lemma RejectionHoldsForGood(key: string, before: seq<Act>, after: seq<Act>, f: Id, c: Call, v: Env)
    requires var m := Replay(AfterAll(key, NewLedger(key), before).rows); m.Some? && f in m.value.fences
    requires Guarded(c)
    ensures var db := AfterAll(key, NewLedger(key), before);
            var m, n := Replay(db.rows).value, Replay(AfterAll(key, db, after).rows);
            && n.Some? && f in n.value.fences && n.value.fences[f] == m.fences[f]
            && (FenceOf(n.value, c) == Some(f) && NamedRequest(c) != Some(m.fences[f]) ==>
                && (PlanOf(n.value, c, v).outcome.Succeeded? <==> ReadingsOk(v) && AnsweredBefore(n.value, c, v))
                && (PlanOf(n.value, c, v).outcome.Succeeded? ==> PlanOf(n.value, c, v).appends == []))
  {
    EveryRunReplays(key, before);
    var db := AfterAll(key, NewLedger(key), before);
    RunEvolves(key, db, after);
    var end := AfterAll(key, db, after);
    ReplayedMemoryOk(key, end.rows);
    HeldFenceBlocks(Replay(end.rows).value, L.LastAt(end.rows), c, v, f);
  }

  // ---------- A retry that succeeds behind the fence ----------

  const FIRST := Subject("fence", "reviewer", "service", "first manifest")
  const SECOND := Subject("fence", "reviewer", "service", "second manifest")
  const FIRST_REQUEST := NewRequest(FIRST, "key-1", 1, 100)
  const SECOND_REQUEST := NewRequest(SECOND, "key-2", 2, 100)

  function Moment(t: int): Env { Env(t, t, true, true) }

  const SECOND_CALL := RequestApproval(SECOND, "key-2", 100)

  /** Request twice with one fence, reject the first. */
  const STORY: seq<Act> := [
    Act(RequestApproval(FIRST, "key-1", 100), Moment(1), None, 1),
    Act(SECOND_CALL, Moment(2), None, 1),
    Act(Decide(FIRST_REQUEST, "reviewer", Reject, 0, Some("no")), Moment(3), None, 1)]

  /** An act that lands its only event. */
  lemma OneEvent(key: string, db: L.Database<Entry>, m: Memory, a: Act, r: Record)
    requires HistoryOk(key, db) && Replay(db.rows) == Some(m) && Starts(db, a) && a.landed == 1
    requires PlanOf(m, a.call, a.env).appends == [r] && PlanOf(m, a.call, a.env).at == a.env.now
    ensures var next := After(key, db, a);
            HistoryOk(key, next) && Replay(next.rows) == Some(Remember(m, r)) && L.LastAt(next.rows) == Some(a.env.now)
  {
    ActKeeps(key, db, a);
    assert Cut([r], 1) == [r] && [r][1..] == [];
    assert RememberAll(m, [r]) == RememberAll(Remember(m, r), []);
    assert LandAll(key, db, [r], a.env.now) == LandAll(key, L.Appended(key, db, EntryOf(r), a.env.now), [], a.env.now);
  }

  function Fresh(q: Request): Record { Record(q, Requested, 0, None, None, None, None) }

  const AFTER_FIRST := Remember(EMPTY, Fresh(FIRST_REQUEST))
  const AFTER_SECOND := Remember(AFTER_FIRST, Fresh(SECOND_REQUEST))

  lemma StoryPlans()
    ensures PlanOf(EMPTY, STORY[0].call, Moment(1)) == Plan([Fresh(FIRST_REQUEST)], 1, Succeeded(Fresh(FIRST_REQUEST), false))
    ensures PlanOf(AFTER_FIRST, STORY[1].call, Moment(2)) == Plan([Fresh(SECOND_REQUEST)], 2, Succeeded(Fresh(SECOND_REQUEST), false))
  {
  }

  lemma RejectionPlan() returns (r: Record)
    ensures PlanOf(AFTER_SECOND, STORY[2].call, Moment(3)) == Plan([r], 3, Succeeded(r, false))
    ensures r.request == FIRST_REQUEST && r.state == Rejected
  {
    r := DecideLive(AFTER_SECOND, Fresh(FIRST_REQUEST), STORY[2].call, Moment(3)).appends[0];
  }

  lemma StoryRuns(key: string)
    ensures AfterAll(key, NewLedger(key), STORY) == After(key, After(key, After(key, NewLedger(key), STORY[0]), STORY[1]), STORY[2])
  {
    var db0 := NewLedger(key);
    var db1 := After(key, db0, STORY[0]);
    var db2 := After(key, db1, STORY[1]);
    assert STORY[1..][0] == STORY[1] && STORY[1..][1..][0] == STORY[2] && STORY[1..][1..][1..] == [];
    assert AfterAll(key, db0, STORY) == AfterAll(key, db1, STORY[1..]);
    assert AfterAll(key, db1, STORY[1..]) == AfterAll(key, db2, STORY[1..][1..]);
    assert AfterAll(key, db2, STORY[1..][1..]) == AfterAll(key, After(key, db2, STORY[2]), []);
  }

  lemma StorySteps(key: string) returns (r: Record)
    ensures Replay(AfterAll(key, NewLedger(key), STORY).rows) == Some(Remember(AFTER_SECOND, r))
    ensures r.request == FIRST_REQUEST && r.state == Rejected
  {
    StoryPlans();
    var db0 := NewLedger(key);
    OneEvent(key, db0, EMPTY, STORY[0], Fresh(FIRST_REQUEST));
    var db1 := After(key, db0, STORY[0]);
    OneEvent(key, db1, AFTER_FIRST, STORY[1], Fresh(SECOND_REQUEST));
    var db2 := After(key, db1, STORY[1]);
    r := RejectionPlan();
    OneEvent(key, db2, AFTER_SECOND, STORY[2], r);
    StoryRuns(key);
  }

  /** After the first request with this fence was rejected, asking again for the second one still succeeds. */
  lemma RetrySucceedsBehindFence(key: string)
    ensures var m := Replay(AfterAll(key, NewLedger(key), STORY).rows);
            && m.Some? && "fence" in m.value.fences && m.value.fences["fence"] == FIRST_REQUEST.id
            && var out := PlanOf(m.value, SECOND_CALL, Moment(4)).outcome;
               out.Succeeded? && out.retry && out.record.request == SECOND_REQUEST && SECOND_REQUEST.id != FIRST_REQUEST.id
  {
    var r := StorySteps(key);
  }
}
