/**
 Lifecycle of import approvals (backend/import_approval/contract.py): the records, the checks
 that replay makes on every event, the checks that persisting makes, and what each public
 operation plans to write.

 A request's ID is the digest of its content, so it is a free constructor over that content.
 Evidence gathering, principals and the source compare-and-swap are oracles: an operation takes
 their verdicts as inputs.  The many digests a request binds are one `Subject`.
 */
module Approval {
  import opened Graph
  import L = Ledger

  datatype Subject = Subject(fence: Id, reviewer: Id, service: Id, evidence: string)

  datatype RequestId = RequestId(subject: Subject, requestedAt: int, expiresAt: int, operationKey: Id) | Other(text: string)

  datatype Request = Request(id: RequestId, subject: Subject, operationKey: Id, requestedAt: int, expiresAt: int)

  datatype Decision = Approve | Reject
  datatype HumanApproval = HumanApproval(
    requestId: RequestId, subject: Subject, decision: Decision, decidedBy: Id, decidedAt: int, expiresAt: int, reason: Option<string>)
  datatype Authorization = Authorization(
    requestId: RequestId, subject: Subject, approval: HumanApproval, issuedAt: int, expiresAt: int)

  datatype State = Requested | Approved | Rejected | Authorized | Expired | Invalidated

  datatype Record = Record(
    request: Request, state: State, generation: int, approval: Option<HumanApproval>, authorization: Option<Authorization>,
    invalidatedBy: Option<Id>, reason: Option<string>)

  // ---------- What the constructors demand ----------

  predicate WfRequest(r: Request) {
    r.id == RequestId(r.subject, r.requestedAt, r.expiresAt, r.operationKey) && r.requestedAt < r.expiresAt
  }

  predicate ApprovalBinds(r: Request, a: HumanApproval) {
    && a.requestId == r.id && a.subject == r.subject && a.decidedBy == r.subject.reviewer
    && a.expiresAt == r.expiresAt && r.requestedAt <= a.decidedAt < a.expiresAt
    && (a.decision == Reject ==> a.reason.Some?)
  }

  predicate AuthorizationBinds(r: Request, a: HumanApproval, z: Authorization) {
    && z.requestId == r.id && z.subject == r.subject && z.approval == a && z.expiresAt == r.expiresAt
    && a.decidedAt <= z.issuedAt < z.expiresAt
  }

  function EvidenceGeneration(r: Record): int {
    if r.authorization.Some? then 2 else if r.approval.Some? then 1 else 0
  }

  predicate WfShape(r: Record) {
    match r.state
    case Requested => EvidenceGeneration(r) == 0 && r.generation == 0
    case Approved => EvidenceGeneration(r) == 1 && r.generation == 1
    case Rejected => EvidenceGeneration(r) == 1 && r.generation == 1
    case Authorized => EvidenceGeneration(r) == 2 && r.generation == 2
    case Expired => r.generation == EvidenceGeneration(r) + 1
    case Invalidated => r.generation == EvidenceGeneration(r) + 1
  }

  /** The rules of the status constructor (backend/import_approval/models.py:1526-1638). */
  predicate WfRecord(r: Record) {
    && WfRequest(r.request) && WfShape(r)
    && (if r.state == Invalidated then r.invalidatedBy == Some(r.request.subject.service) && r.reason.Some?
        else r.invalidatedBy.None? && r.reason.None?)
    && (r.approval.Some? ==> ApprovalBinds(r.request, r.approval.value) && (r.approval.value.decision == Reject <==> r.state == Rejected))
    && (r.authorization.Some? ==>
          r.approval.Some? && r.state != Rejected && r.state != Approved && AuthorizationBinds(r.request, r.approval.value, r.authorization.value))
  }

  // ---------- Transitions ----------

  predicate Allowed(s: State, t: State) {
    match s
    case Requested => t == Approved || t == Rejected || t == Expired || t == Invalidated
    case Approved => t == Authorized || t == Expired || t == Invalidated
    case Authorized => t == Expired || t == Invalidated
    case _ => false
  }

  predicate TransitionOk(p: Record, r: Record) {
    && r.request == p.request && Allowed(p.state, r.state) && r.generation == p.generation + 1
    && (p.approval.Some? ==> r.approval == p.approval) && (p.authorization.Some? ==> r.authorization == p.authorization)
  }

  /** The latest time the record's own evidence mentions. */
  function EvidenceTime(r: Record): int {
    if r.authorization.Some? then r.authorization.value.issuedAt
    else if r.approval.Some? then r.approval.value.decidedAt else r.request.requestedAt
  }

  predicate TimeOk(p: Option<Record>, r: Record, at: int) {
    if p.None? then r.state == Requested && at == r.request.requestedAt
    else
      match r.state
      case Requested => false
      case Approved => r.approval.Some? && at == r.approval.value.decidedAt
      case Rejected => r.approval.Some? && at == r.approval.value.decidedAt
      case Authorized => r.authorization.Some? && at == r.authorization.value.issuedAt
      case Expired => r.request.expiresAt <= at
      case Invalidated => EvidenceTime(r) <= at < r.request.expiresAt
  }

  function Expire(r: Record, now: int): Record {
    if r.state == Expired || r.state == Invalidated || r.state == Rejected then r
    else if now >= r.request.expiresAt then r.(state := Expired, generation := r.generation + 1)
    else r
  }

  // ---------- Memory ----------

  datatype Memory = Memory(
    records: map<RequestId, Record>, subjects: map<Subject, RequestId>, operations: map<Id, RequestId>, fences: map<Id, RequestId>)

  const EMPTY := Memory(map[], map[], map[], map[])

  function Remember(m: Memory, r: Record): Memory {
    var q := r.request;
    Memory(m.records[q.id := r], m.subjects[q.subject := q.id], m.operations[q.operationKey := q.id],
           if r.state == Rejected then m.fences[q.subject.fence := q.id] else m.fences)
  }

  function Lookup<K, V>(m: map<K, V>, k: K): Option<V> { if k in m then Some(m[k]) else None }

  /** The subject is free, or its last request expired. */
  predicate SubjectFree(m: Memory, s: Subject) {
    s in m.subjects ==> m.subjects[s] in m.records && m.records[m.subjects[s]].state == Expired
  }

  /** What replay demands of a snapshot, given the memory rebuilt so far. */
  predicate Accepts(m: Memory, r: Record, at: int) {
    var q, p := r.request, Lookup(m.records, r.request.id);
    && WfRecord(r) && TimeOk(p, r, at)
    && (if p.None? then SubjectFree(m, q.subject) && r.state == Requested && r.generation == 0 else TransitionOk(p.value, r))
    && (q.operationKey in m.operations ==> m.operations[q.operationKey] == q.id)
    && (r.state == Rejected && q.subject.fence in m.fences ==> m.fences[q.subject.fence] == q.id)
  }

  /** What persisting demands; it is less than what replay demands. */
  predicate Persistable(m: Memory, r: Record) {
    var p := Lookup(m.records, r.request.id);
    && WfRecord(r)
    && (if p.None? then r.state == Requested && r.generation == 0 else p.value != r && TransitionOk(p.value, r))
  }

  // ---------- Replay ----------

  datatype Entry = Entry(requestId: RequestId, subject: Subject, operationKey: Id, state: State, generation: int, record: Record)

  function EntryOf(r: Record): Entry { Entry(r.request.id, r.request.subject, r.request.operationKey, r.state, r.generation, r) }

  function ReplayOne(m: Memory, e: L.Event<Entry>): Option<Memory> {
    if e.body == EntryOf(e.body.record) && Accepts(m, e.body.record, e.at) then Some(Remember(m, e.body.record)) else None
  }

  function Replay(rows: seq<L.Event<Entry>>): Option<Memory> {
    if rows == [] then Some(EMPTY)
    else
      match Replay(rows[..|rows| - 1])
      case None => None
      case Some(m) => ReplayOne(m, rows[|rows| - 1])
  }

  // ---------- Operations ----------

  /** Clock readings, and the verdicts of the checks made before and after the second reading. */
  datatype Env = Env(now: int, later: int, early: bool, final: bool)

  datatype Call =
    | RequestApproval(subject: Subject, operationKey: Id, expiresAt: int)
    | Decide(request: Request, principal: Id, decision: Decision, expected: int, reason: Option<string>)
    | Authorize(approval: HumanApproval, principal: Id, expected: int)
    | Validate(authorization: Authorization, principal: Id)
    | Invalidate(requestId: RequestId, principal: Id, why: string, expected: int)
    | GetStatus(requestId: RequestId)

  /** `record` is the record the returned value was read from; `retry` marks an idempotent answer. */
  datatype Outcome = Failed | Succeeded(record: Record, retry: bool)

  /** Records to persist in order at the last clock reading, and the answer once all are persisted. */
  datatype Plan = Plan(appends: seq<Record>, at: int, outcome: Outcome)

  function Fail(at: int): Plan { Plan([], at, Failed) }

  function Changed(p: Record, r: Record): seq<Record> { if p != r then [r] else [] }

  predicate Fenced(m: Memory, q: Request) {
    q.subject.fence in m.fences && m.fences[q.subject.fence] != q.id
  }

  function NewRequest(s: Subject, operationKey: Id, at: int, expiresAt: int): Request {
    Request(RequestId(s, at, expiresAt, operationKey), s, operationKey, at, expiresAt)
  }

  function PlanRequest(m: Memory, s: Subject, operationKey: Id, expiresAt: int, v: Env): Plan {
    if expiresAt <= v.now || !v.early then Fail(v.now)
    else if v.later < v.now then Fail(v.now)
    else if expiresAt <= v.later then Fail(v.later)
    else if operationKey in m.operations then
      var id := m.operations[operationKey];
      if id in m.records && m.records[id].request.subject == s && m.records[id].request.expiresAt == expiresAt && v.final then
        Plan([], v.later, Succeeded(m.records[id], true))
      else Fail(v.later)
    else if s.fence in m.fences then Fail(v.later)
    else
      var r := Record(NewRequest(s, operationKey, v.later, expiresAt), Requested, 0, None, None, None, None);
      if s !in m.subjects then
        if v.final then Plan([r], v.later, Succeeded(r, false)) else Fail(v.later)
      else if m.subjects[s] !in m.records then Fail(v.later)
      else
        var p := m.records[m.subjects[s]];
        var x := Expire(p, v.later);
        if x.state != Expired || !v.final then Plan(Changed(p, x), v.later, Failed)
        else Plan(Changed(p, x) + [r], v.later, Succeeded(r, false))
  }

  /** A record that has expired by `now` is persisted as such before the operation fails. */
  function ExpireOr(p: Record, now: int, otherwise: Plan): Plan {
    if Expire(p, now).state == Expired then Plan(Changed(p, Expire(p, now)), now, Failed) else otherwise
  }

  function PlanDecide(m: Memory, c: Call, v: Env): Plan
    requires c.Decide?
  {
    if c.request.id !in m.records then Fail(v.now)
    else
      var p := m.records[c.request.id];
      ExpireOr(p, v.now,
        if p.request != c.request || !v.early || v.later < v.now then Fail(v.now)
        else ExpireOr(p, v.later, DecideLive(m, p, c, v)))
  }

  function DecideLive(m: Memory, p: Record, c: Call, v: Env): Plan
    requires c.Decide?
  {
    if p.approval.Some? then
      var a := p.approval.value;
      if a.decidedBy == c.principal && a.decision == c.decision && a.reason == c.reason && v.final then
        Plan([], v.later, Succeeded(p, true))
      else Fail(v.later)
    else if Fenced(m, p.request) || p.state != Requested || p.generation != c.expected || c.principal != p.request.subject.reviewer
            || (c.decision == Reject && c.reason.None?) || !v.final then Fail(v.later)
    else
      var a := HumanApproval(p.request.id, p.request.subject, c.decision, c.principal, v.later, p.request.expiresAt, c.reason);
      var r := p.(state := if c.decision == Approve then Approved else Rejected, generation := 1, approval := Some(a));
      Plan([r], v.later, Succeeded(r, false))
  }

  function PlanAuthorize(m: Memory, c: Call, v: Env): Plan
    requires c.Authorize?
  {
    if c.approval.requestId !in m.records then Fail(v.now)
    else
      var p := m.records[c.approval.requestId];
      ExpireOr(p, v.now,
        if p.approval != Some(c.approval) || Fenced(m, p.request) || c.approval.decision != Approve
           || c.principal != p.request.subject.service || !v.early || v.later < v.now then Fail(v.now)
        else ExpireOr(p, v.later, AuthorizeLive(p, c, v)))
  }

  function AuthorizeLive(p: Record, c: Call, v: Env): Plan
    requires c.Authorize?
  {
    if !v.final then Fail(v.later)
    else if p.state == Authorized then
      if p.authorization.Some? then Plan([], v.later, Succeeded(p, true)) else Fail(v.later)
    else if p.state != Approved || p.generation != c.expected then Fail(v.later)
    else
      var z := Authorization(p.request.id, p.request.subject, c.approval, v.later, p.request.expiresAt);
      var r := p.(state := Authorized, generation := 2, authorization := Some(z));
      Plan([r], v.later, Succeeded(r, false))
  }

  function PlanValidate(m: Memory, c: Call, v: Env): Plan
    requires c.Validate?
  {
    if c.authorization.requestId !in m.records then Fail(v.now)
    else
      var p := m.records[c.authorization.requestId];
      ExpireOr(p, v.now,
        if p.state != Authorized || p.authorization != Some(c.authorization) || Fenced(m, p.request)
           || c.principal != c.authorization.subject.service || !v.early || v.later < v.now then Fail(v.now)
        else ExpireOr(p, v.later, if v.final then Plan([], v.later, Succeeded(p, false)) else Fail(v.later)))
  }

  function PlanInvalidate(m: Memory, c: Call, v: Env): Plan
    requires c.Invalidate?
  {
    if c.requestId !in m.records || c.principal != m.records[c.requestId].request.subject.service || !v.early || v.later < v.now then Fail(v.now)
    else
      var p := m.records[c.requestId];
      if Expire(p, v.later).state == Expired then
        if v.final then Plan(Changed(p, Expire(p, v.later)), v.later, Failed) else Fail(v.later)
      else if p.state == Invalidated || p.state == Rejected || p.generation != c.expected || !v.final then Fail(v.later)
      else
        var r := p.(state := Invalidated, generation := p.generation + 1, invalidatedBy := Some(c.principal), reason := Some(c.why));
        Plan([r], v.later, Succeeded(r, false))
  }

  function PlanStatus(m: Memory, c: Call, v: Env): Plan
    requires c.GetStatus?
  {
    if c.requestId !in m.records then Fail(v.now)
    else
      var p := m.records[c.requestId];
      Plan(Changed(p, Expire(p, v.now)), v.now, Succeeded(Expire(p, v.now), false))
  }

  function PlanOf(m: Memory, c: Call, v: Env): Plan {
    match c
    case RequestApproval(s, k, e) => PlanRequest(m, s, k, e, v)
    case Decide(_, _, _, _, _) => PlanDecide(m, c, v)
    case Authorize(_, _, _) => PlanAuthorize(m, c, v)
    case Validate(_, _) => PlanValidate(m, c, v)
    case Invalidate(_, _, _, _) => PlanInvalidate(m, c, v)
    case GetStatus(_) => PlanStatus(m, c, v)
  }
}
