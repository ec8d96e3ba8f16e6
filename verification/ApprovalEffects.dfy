/**
 What each approval operation answers and writes (backend/import_approval/contract.py:228-898), stated on
 the stored record, the call and the clock readings; and that replay accepts nothing else.
 */
module ApprovalEffects {
  import opened Graph
  import opened Approval
  import opened ApprovalRuns
  import L = Ledger

  // ---------- Expiry ----------

  /** A lifecycle that has not ended, at or past its expiry. */
  predicate Overdue(p: Record, t: int) {
    (p.state == Requested || p.state == Approved || p.state == Authorized) && p.request.expiresAt <= t
  }

  predicate ExpiredBy(p: Record, t: int) { p.state == Expired || Overdue(p, t) }

  /** The snapshot that records an expiry: the next generation, with all evidence kept. */
  ghost predicate Expiry(p: Record, x: Record) {
    && x.state == Expired && x.generation == p.generation + 1 && x.request == p.request && x.approval == p.approval
    && x.authorization == p.authorization && x.invalidatedBy == p.invalidatedBy && x.reason == p.reason
  }

  lemma ExpireExactly(p: Record, t: int)
    ensures Overdue(p, t) ==> Expiry(p, Expire(p, t))
    ensures !Overdue(p, t) ==> Expire(p, t) == p
    ensures ExpiredBy(p, t) <==> Expire(p, t).state == Expired
  {
  }

  /** A failed operation writes nothing, or the one expiry it came across, at the reading that found it. */
  ghost predicate OnlyExpiry(plan: Plan, p: Record, t: int) {
    plan.at == t && if Overdue(p, t) then |plan.appends| == 1 && Expiry(p, plan.appends[0]) else plan.appends == []
  }

  /** The lookups and readings that come before an operation's own rules; `fits` is what it checks between the readings. */
  ghost predicate Reaches(m: Memory, id: RequestId, v: Env, fits: bool) {
    && id in m.records && !ExpiredBy(m.records[id], v.now) && fits && v.early && v.now <= v.later
    && !ExpiredBy(m.records[id], v.later)
  }

  ghost predicate EarlyFailure(m: Memory, id: RequestId, v: Env, fits: bool, plan: Plan) {
    && plan.outcome == Failed
    && if id !in m.records then plan.appends == []
       else
         var p := m.records[id];
         if ExpiredBy(p, v.now) then OnlyExpiry(plan, p, v.now)
         else if !fits || !v.early || v.later < v.now then plan.appends == []
         else OnlyExpiry(plan, p, v.later)
  }

  /** An answer without a write, from a stored record. */
  ghost predicate Answers(plan: Plan, p: Record, retry: bool) { plan.appends == [] && plan.outcome == Succeeded(p, retry) }

  /** One written snapshot, which is also the answer. */
  ghost predicate WritesOne(plan: Plan, v: Env) {
    && |plan.appends| == 1 && plan.at == v.later && plan.outcome == Succeeded(plan.appends[0], false)
  }

  // ---------- Request ----------

  /** The new request is exactly what was asked for, requested now. */
  ghost predicate Opens(r: Record, s: Subject, k: Id, expiresAt: int, at: int) {
    && r.request.subject == s && r.request.operationKey == k && r.request.requestedAt == at && r.request.expiresAt == expiresAt
    && r.request.id == RequestId(s, at, expiresAt, k)
    && r.state == Requested && r.generation == 0 && r.approval.None? && r.authorization.None? && r.invalidatedBy.None? && r.reason.None?
  }

  ghost predicate RequestTimely(v: Env, expiresAt: int) { v.now < expiresAt && v.early && v.now <= v.later < expiresAt && v.final }

  /** The same subject and expiry were requested under this key before. */
  ghost predicate Repeats(m: Memory, s: Subject, k: Id, expiresAt: int) {
    && k in m.operations && m.operations[k] in m.records
    && m.records[m.operations[k]].request.subject == s && m.records[m.operations[k]].request.expiresAt == expiresAt
  }

  /** The last request on the subject, if there was one. */
  function LastOn(m: Memory, s: Subject): Option<Record> {
    if s in m.subjects && m.subjects[s] in m.records then Some(m.records[m.subjects[s]]) else None
  }

  ghost predicate MayOpen(m: Memory, s: Subject, k: Id, at: int) {
    k !in m.operations && s.fence !in m.fences && (LastOn(m, s).Some? ==> ExpiredBy(LastOn(m, s).value, at))
  }

  ghost predicate OpensAfter(plan: Plan, last: Option<Record>, s: Subject, k: Id, expiresAt: int, at: int) {
    && plan.at == at && 1 <= |plan.appends| <= 2
    && Opens(plan.appends[|plan.appends| - 1], s, k, expiresAt, at)
    && plan.outcome == Succeeded(plan.appends[|plan.appends| - 1], false)
    && (|plan.appends| == 2 <==> last.Some? && Overdue(last.value, at))
    && (|plan.appends| == 2 ==> Expiry(last.value, plan.appends[0]))
  }

  /**
   A request succeeds as a repetition of the same request under its key, or under a new key for an unfenced
   subject without live lifecycle; then it writes that subject's due expiry, if any, and the new request.
   */
  lemma RequestExactly(m: Memory, s: Subject, k: Id, expiresAt: int, v: Env)
    requires (forall x :: SubjectAt(m, x)) && forall x :: OperationAt(m, x)
    ensures var plan := PlanOf(m, RequestApproval(s, k, expiresAt), v);
            if RequestTimely(v, expiresAt) && Repeats(m, s, k, expiresAt) then Answers(plan, m.records[m.operations[k]], true)
            else if RequestTimely(v, expiresAt) && MayOpen(m, s, k, v.later) then OpensAfter(plan, LastOn(m, s), s, k, expiresAt, v.later)
            else plan.outcome == Failed && (plan.appends == [] || (LastOn(m, s).Some? && OnlyExpiry(plan, LastOn(m, s).value, v.later)))
  {
    assert SubjectAt(m, s) && OperationAt(m, k);
    if s in m.subjects { ExpireExactly(m.records[m.subjects[s]], v.later); }
  }

  // ---------- Decide ----------

  /** The decision is stored as it was made, and nothing else of the record changes. */
  ghost predicate Decides(p: Record, r: Record, decision: Decision, principal: Id, at: int, reason: Option<string>) {
    && r.request == p.request && r.generation == 1 && r.state == (if decision == Approve then Approved else Rejected)
    && r.approval.Some? && r.authorization == p.authorization && r.invalidatedBy == p.invalidatedBy && r.reason == p.reason
    && var a := r.approval.value;
       && a.decision == decision && a.decidedBy == principal && a.decidedAt == at && a.reason == reason
       && a.requestId == p.request.id && a.subject == p.request.subject && a.expiresAt == p.request.expiresAt
  }

  ghost predicate SameDecision(p: Record, decision: Decision, principal: Id, reason: Option<string>) {
    p.approval.Some? && p.approval.value.decidedBy == principal && p.approval.value.decision == decision && p.approval.value.reason == reason
  }

  ghost predicate FencedByOther(m: Memory, p: Record) {
    p.request.subject.fence in m.fences && m.fences[p.request.subject.fence] != p.request.id
  }

  /** A first decision needs an open, unfenced request of the expected generation, its own reviewer, and a reason to reject. */
  ghost predicate MayDecide(m: Memory, p: Record, decision: Decision, principal: Id, expected: int, reason: Option<string>) {
    && p.approval.None? && p.state == Requested && p.generation == expected && !FencedByOther(m, p)
    && principal == p.request.subject.reviewer && (decision == Reject ==> reason.Some?)
  }

  lemma DecideExactly(m: Memory, q: Request, principal: Id, decision: Decision, expected: int, reason: Option<string>, v: Env)
    ensures var plan := PlanOf(m, Decide(q, principal, decision, expected, reason), v);
            var fits := q.id in m.records && m.records[q.id].request == q;
            if !Reaches(m, q.id, v, fits) then EarlyFailure(m, q.id, v, fits, plan)
            else
              var p := m.records[q.id];
              if v.final && SameDecision(p, decision, principal, reason) then Answers(plan, p, true)
              else if v.final && MayDecide(m, p, decision, principal, expected, reason) then
                WritesOne(plan, v) && Decides(p, plan.appends[0], decision, principal, v.later, reason)
              else plan.outcome == Failed && plan.appends == []
  {
    if q.id in m.records {
      ExpireExactly(m.records[q.id], v.now);
      ExpireExactly(m.records[q.id], v.later);
    }
  }

  // ---------- Authorize ----------

  /** The authorization names the request and the very approval, and nothing else of the record changes. */
  ghost predicate Authorizes(p: Record, r: Record, approval: HumanApproval, at: int) {
    && r.request == p.request && r.generation == 2 && r.state == Authorized && r.approval == p.approval
    && r.authorization.Some? && r.invalidatedBy == p.invalidatedBy && r.reason == p.reason
    && var z := r.authorization.value;
       && z.requestId == p.request.id && z.subject == p.request.subject && z.approval == approval && z.issuedAt == at && z.expiresAt == p.request.expiresAt
  }

  lemma AuthorizeExactly(m: Memory, approval: HumanApproval, principal: Id, expected: int, v: Env)
    ensures var plan := PlanOf(m, Authorize(approval, principal, expected), v);
            var fits := approval.requestId in m.records
                        && var p := m.records[approval.requestId];
                           && p.approval == Some(approval) && approval.decision == Approve && !FencedByOther(m, p)
                           && principal == p.request.subject.service;
            if !Reaches(m, approval.requestId, v, fits) then EarlyFailure(m, approval.requestId, v, fits, plan)
            else
              var p := m.records[approval.requestId];
              if v.final && p.state == Authorized && p.authorization.Some? then Answers(plan, p, true)
              else if v.final && p.state == Approved && p.generation == expected then
                WritesOne(plan, v) && Authorizes(p, plan.appends[0], approval, v.later)
              else plan.outcome == Failed && plan.appends == []
  {
    if approval.requestId in m.records {
      ExpireExactly(m.records[approval.requestId], v.now);
      ExpireExactly(m.records[approval.requestId], v.later);
    }
  }

  // ---------- Validate ----------

  /** Validation answers exactly the recorded authorization of an authorized, unfenced, unexpired request, and writes nothing. */
  lemma ValidateExactly(m: Memory, z: Authorization, principal: Id, v: Env)
    ensures var plan := PlanOf(m, Validate(z, principal), v);
            var fits := z.requestId in m.records
                        && var p := m.records[z.requestId];
                           && p.state == Authorized && p.authorization == Some(z) && !FencedByOther(m, p) && principal == z.subject.service;
            if !Reaches(m, z.requestId, v, fits) then EarlyFailure(m, z.requestId, v, fits, plan)
            else if v.final then Answers(plan, m.records[z.requestId], false)
            else plan.outcome == Failed && plan.appends == []
  {
    if z.requestId in m.records {
      ExpireExactly(m.records[z.requestId], v.now);
      ExpireExactly(m.records[z.requestId], v.later);
    }
  }

  // ---------- Invalidate ----------

  ghost predicate Invalidates(p: Record, r: Record, principal: Id, why: string) {
    && r.request == p.request && r.generation == p.generation + 1 && r.state == Invalidated
    && r.approval == p.approval && r.authorization == p.authorization && r.invalidatedBy == Some(principal) && r.reason == Some(why)
  }

  lemma InvalidateExactly(m: Memory, id: RequestId, principal: Id, why: string, expected: int, v: Env)
    ensures var plan := PlanOf(m, Invalidate(id, principal, why, expected), v);
            if id !in m.records || principal != m.records[id].request.subject.service || !v.early || v.later < v.now then
              plan.outcome == Failed && plan.appends == []
            else
              var p := m.records[id];
              if ExpiredBy(p, v.later) then plan.outcome == Failed && if v.final then OnlyExpiry(plan, p, v.later) else plan.appends == []
              else if v.final && p.state != Invalidated && p.state != Rejected && p.generation == expected then
                WritesOne(plan, v) && Invalidates(p, plan.appends[0], principal, why)
              else plan.outcome == Failed && plan.appends == []
  {
    if id in m.records { ExpireExactly(m.records[id], v.later); }
  }

  // ---------- Status ----------

  /** The status of a known request is its record; an overdue one is stored and answered as expired. */
  lemma StatusExactly(m: Memory, id: RequestId, v: Env)
    ensures var plan := PlanOf(m, GetStatus(id), v);
            if id !in m.records then plan.outcome == Failed && plan.appends == []
            else
              && plan.outcome.Succeeded? && !plan.outcome.retry && OnlyExpiry(plan, m.records[id], v.now)
              && plan.outcome.record == if Overdue(m.records[id], v.now) then plan.appends[0] else m.records[id]
  {
    if id in m.records { ExpireExactly(m.records[id], v.now); }
  }

  // ---------- Replay accepts exactly what operations write ----------

  /** Some operation that starts on this memory, no earlier than its last event, writes exactly this snapshot at this time. */
  ghost predicate Written(m: Memory, last: Option<int>, r: Record, at: int) {
    exists c, v :: WrittenBy(m, r, at, c, v) && Timely(last, v.now)
  }

  ghost predicate WrittenBy(m: Memory, r: Record, at: int, c: Call, v: Env) {
    v.now <= at && PlanOf(m, c, v).appends == [r] && PlanOf(m, c, v).at == at
  }

  /** The rejection fence as the operations see it; replay itself looks at it only for rejections. */
  ghost predicate FenceOpen(m: Memory, r: Record) {
    match r.state
    case Requested => r.request.subject.fence !in m.fences
    case Approved => !Fenced(m, r.request)
    case Rejected => !Fenced(m, r.request)
    case Authorized => !Fenced(m, r.request)
    case Expired => true
    case Invalidated => true
  }

  /** The call that writes a snapshot. */
  function CallFor(p: Option<Record>, r: Record): Call {
    match r.state
    case Requested => RequestApproval(r.request.subject, r.request.operationKey, r.request.expiresAt)
    case Approved => Decide(r.request, r.request.subject.reviewer, Approve, 0, if r.approval.Some? then r.approval.value.reason else None)
    case Rejected => Decide(r.request, r.request.subject.reviewer, Reject, 0, if r.approval.Some? then r.approval.value.reason else None)
    case Authorized =>
      if r.approval.Some? then Authorize(r.approval.value, r.request.subject.service, 1) else GetStatus(r.request.id)
    case Expired => GetStatus(r.request.id)
    case Invalidated =>
      Invalidate(r.request.id, r.request.subject.service, if r.reason.Some? then r.reason.value else "", if p.Some? then p.value.generation else 0)
  }

  lemma AcceptedRequest(m: Memory, last: Option<int>, r: Record, at: int)
    requires MemoryOk(m, last) && Accepts(m, r, at) && FenceOpen(m, r) && r.request.id !in m.records
    ensures WrittenBy(m, r, at, CallFor(None, r), Env(at, at, true, true))
  {
    var q := r.request;
    assert OperationAt(m, q.operationKey) && SubjectAt(m, q.subject);
  }

  lemma AcceptedUpdate(m: Memory, last: Option<int>, r: Record, at: int)
    requires MemoryOk(m, last) && Accepts(m, r, at) && FenceOpen(m, r) && r.request.id in m.records
    ensures WrittenBy(m, r, at, CallFor(Some(m.records[r.request.id]), r), Env(at, at, true, true))
  {
    var p := m.records[r.request.id];
    assert RecordAt(m, r.request.id, last);
  }

  /** An operation that writes a decision, authorization or request has found the fence open. */
  lemma WrittenFence(m: Memory, last: Option<int>, r: Record, at: int, c: Call, v: Env)
    requires MemoryOk(m, last) && WrittenBy(m, r, at, c, v)
    ensures FenceOpen(m, r)
  {
    match c
    case RequestApproval(s, k, e) =>
      RequestExactly(m, s, k, e, v);
      if LastOn(m, s).Some? { assert RecordAt(m, m.subjects[s], last); }
    case Decide(q, principal, decision, expected, reason) => DecideExactly(m, q, principal, decision, expected, reason, v);
    case Authorize(approval, principal, expected) => AuthorizeExactly(m, approval, principal, expected, v);
    case Validate(z, principal) => ValidateExactly(m, z, principal, v);
    case Invalidate(id, principal, why, expected) => InvalidateExactly(m, id, principal, why, expected, v);
    case GetStatus(id) => StatusExactly(m, id, v);
  }

  /**
   On every memory replay can build: a snapshot at a time not before the last event is one that some
   operation writes if and only if replay accepts it and the fence is open to it.  So replay lets
   through no history that operations could not have written, but for rejection fences.
   */
  lemma ReplayAcceptsExactly(m: Memory, last: Option<int>, r: Record, at: int)
    requires MemoryOk(m, last) && Timely(last, at)
    ensures Written(m, last, r, at) <==> Accepts(m, r, at) && FenceOpen(m, r)
  {
    if Accepts(m, r, at) && FenceOpen(m, r) {
      var v := Env(at, at, true, true);
      var p := if r.request.id in m.records then Some(m.records[r.request.id]) else None;
      if p.Some? { AcceptedUpdate(m, last, r, at); } else { AcceptedRequest(m, last, r, at); }
      assert WrittenBy(m, r, at, CallFor(p, r), v) && Timely(last, v.now);
    }
    if c, v :| WrittenBy(m, r, at, c, v) && Timely(last, v.now) {
      PlanLands(m, last, c, v);
      assert [r][0] == r;
      WrittenFence(m, last, r, at, c, v);
    }
  }

  // ---------- Events ----------

  /** An event is replayed exactly if its metadata says what its snapshot says and the snapshot is accepted. */
  lemma EventExactly(m: Memory, e: L.Event<Entry>)
    ensures var r := e.body.record;
            ReplayOne(m, e).Some? <==>
              && e.body.requestId == r.request.id && e.body.subject == r.request.subject && e.body.operationKey == r.request.operationKey
              && e.body.state == r.state && e.body.generation == r.generation && Accepts(m, r, e.at)
    ensures ReplayOne(m, e).Some? ==>
      var n, r := ReplayOne(m, e).value, e.body.record;
      && n.records == m.records[r.request.id := r] && n.subjects == m.subjects[r.request.subject := r.request.id]
      && n.operations == m.operations[r.request.operationKey := r.request.id]
      && n.fences == if r.state == Rejected then m.fences[r.request.subject.fence := r.request.id] else m.fences
  {
  }
}
