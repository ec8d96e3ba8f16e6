/**
 Transaction kernel (backend/design_kernel/engine.py:204-737) as functions on its state: two
 idempotency indexes, open and finished transactions, and a chain of committed revisions.
 */
module Kernel {
  import opened Graph
  import opened Commands
  import opened Normalization
  import opened Fold
  import opened Digests
  import A = Authority

  datatype TxState = Open | Verified | Committed | RolledBack

  datatype Transaction = Transaction(
    id: Id, base: Digest, staged: Graph, commands: seq<Command>, state: TxState,
    report: Option<Digest>, gatePassed: bool, preview: Digest, verifiedPreview: Option<Digest>, revision: Option<Digest>)

  datatype Revision = Revision(
    hash: Digest, parent: Option<Digest>, sequence: int, graph: Graph, graphHash: Digest,
    commands: seq<Digest>, report: Option<Digest>, preview: Option<Digest>)

  datatype Kernel = Kernel(
    revisions: map<Digest, Revision>, head: Digest, transactions: map<Id, Transaction>,
    idempotency: map<(Id, Id), Digest>, commandIds: map<Id, Digest>,
    authorizations: map<Id, A.AuthDigest>, evidence: map<Id, A.Consumption>)

  function HashOf(g: Graph): Digest { GraphHash(Normalize(g)) }

  function HashesOf(commands: seq<Command>): seq<Digest> {
    MapSeq(commands, (c: Command) => CommandHash(c))
  }

  function PreviewOf(t: Transaction): Digest {
    PreviewHash(t.base, t.id, HashOf(t.staged), HashesOf(t.commands))
  }

  function Refresh(t: Transaction): Transaction { t.(preview := PreviewOf(t)) }

  // ---------- Starting ----------

  function Rooted(r: Revision): Kernel {
    Kernel(map[r.hash := r], r.hash, map[], map[], map[], map[], map[])
  }

  /** A fresh kernel on an initial graph; refused if the canonical graph is invalid. */
  ghost function Start(initial: Graph): Result<Kernel> {
    var g := Normalize(initial);
    if !Valid(g) then Err(InvariantViolation)
    else Ok(Rooted(Revision(GenesisHash(HashOf(g)), None, 0, g, HashOf(g), [], None, None)))
  }

  /** A preview fork that keeps an exact revision as its head. */
  ghost function StartFrom(r: Revision): Result<Kernel> {
    if !Valid(Normalize(r.graph)) || Normalize(r.graph) != r.graph || HashOf(r.graph) != r.graphHash then Err(InvariantViolation)
    else Ok(Rooted(r))
  }

  // ---------- Transactions ----------

  function NewTransaction(k: Kernel, id: Id): Transaction
    requires k.head in k.revisions
  {
    Refresh(Transaction(id, k.head, k.revisions[k.head].graph, [], Open, None, false, External(""), None, None))
  }

  function Begin(k: Kernel, id: Id, base: Digest): (Kernel, Result<Transaction>)
    requires k.head in k.revisions
  {
    if id in k.transactions then
      if k.transactions[id].base != base then (k, Err(CommandConflict)) else (k, Ok(k.transactions[id]))
    else if base != k.head then (k, Err(StaleRevision))
    else (k.(transactions := k.transactions[id := NewTransaction(k, id)]), Ok(NewTransaction(k, id)))
  }

  function WithCommand(t: Transaction, g: Graph, c: Command): Transaction {
    Refresh(t.(staged := g, commands := t.commands + [c], report := None, verifiedPreview := None, gatePassed := false))
  }

  /** A transaction after one more accepted command. */
  ghost function Extend(t: Transaction, c: Command): Result<Transaction> {
    match Step(t.staged, c.op)
    case Err(f) => Err(f)
    case Ok(g) => if g == t.staged then Err(CommandConflict) else Ok(WithCommand(t, g, c))
  }

  function Publish(k: Kernel, t: Transaction, c: Command): Kernel {
    k.(transactions := k.transactions[c.transactionId := t],
       idempotency := k.idempotency[(c.transactionId, c.key) := CommandHash(c)],
       commandIds := k.commandIds[c.id := CommandHash(c)])
  }

  /** The index checks of one stage call, given what the command would do to its transaction. */
  function StageWith(k: Kernel, c: Command, extended: Result<Transaction>): (Kernel, Result<Transaction>) {
    if c.transactionId !in k.transactions then (k, Err(UnknownTransaction))
    else
      var t := k.transactions[c.transactionId];
      if c.base != t.base then (k, Err(StaleRevision))
      else if (c.transactionId, c.key) in k.idempotency then
        if k.idempotency[(c.transactionId, c.key)] != CommandHash(c) then (k, Err(CommandConflict)) else (k, Ok(t))
      else if c.id in k.commandIds then (k, Err(CommandConflict))
      else if t.state != Open then (k, Err(NotCommittable))
      else
        match extended
        case Err(f) => (k, Err(f))
        case Ok(t') => (Publish(k, t', c), Ok(t'))
  }

  ghost function Stage(k: Kernel, c: Command): (Kernel, Result<Transaction>) {
    StageWith(k, c,
      if c.transactionId in k.transactions then Extend(k.transactions[c.transactionId], c) else Err(UnknownTransaction))
  }

  function Verify(k: Kernel, id: Id, report: Digest, gate: bool, claimed: Option<Digest>): (Kernel, Result<Transaction>) {
    if id !in k.transactions then (k, Err(UnknownTransaction))
    else
      var t := k.transactions[id];
      var subject := if claimed.Some? then claimed.value else t.preview;
      if subject != t.preview then (k, Err(ApprovalMismatch))
      else if t.state == Verified then
        if t.report == Some(report) && t.gatePassed == gate && t.verifiedPreview == Some(subject) then (k, Ok(t))
        else (k, Err(CommandConflict))
      else if t.state != Open then (k, Err(NotCommittable))
      else
        var t' := t.(state := if gate then Verified else Open, report := Some(report), gatePassed := gate, verifiedPreview := Some(subject));
        (k.(transactions := k.transactions[id := t']), Ok(t'))
  }

  function Rollback(k: Kernel, id: Id): (Kernel, Result<Transaction>) {
    if id !in k.transactions then (k, Err(UnknownTransaction))
    else
      var t := k.transactions[id];
      if t.state == Committed then (k, Err(NotCommittable))
      else if t.state == RolledBack then (k, Ok(t))
      else
        var t' := t.(state := RolledBack, report := None, verifiedPreview := None, gatePassed := false);
        (k.(transactions := k.transactions[id := t']), Ok(t'))
  }

  // ---------- Commit ----------

  /** Every binding between the capability and the kernel's own facts. */
  predicate Bound(t: Transaction, v: A.Verified) {
    var c, a := v.capability.claims, v.approval;
    && c.projectId == t.staged.projectId
    && c.base == t.base && c.head == t.base && c.transactionId == t.id
    && c.commands == HashesOf(t.commands)
    && c.preview == t.preview
    && c.graph == HashOf(t.staged)
    && t.report == Some(c.report)
    && t.verifiedPreview == Some(c.verifiedPreview) && c.verifiedPreview == t.preview
    && c.subject == ReleaseHash(t.base, t.preview, c.report)
    && c.gatePassed && t.gatePassed && a.gatePassed
    && c.approvalId == a.id && c.approvalRun == a.runId && c.approvalKind == a.kind && a.kind == "release"
    && c.approvalDigest == a.digest && c.approvalPrincipal == a.principal
    && c.approvalDecidedAt == a.decidedAt && c.approvalExpiresAt == a.expiresAt
  }

  function NewRevision(k: Kernel, t: Transaction, c: A.Claims): Revision
    requires k.head in k.revisions
  {
    var parent := k.revisions[k.head];
    var g := Normalize(t.staged);
    var report := if t.report.Some? then t.report.value else External("");
    Revision(RevisionHash(parent.hash, parent.sequence + 1, HashOf(g), HashesOf(t.commands), report, c.preview),
             Some(parent.hash), parent.sequence + 1, g, HashOf(g), HashesOf(t.commands), t.report, Some(c.preview))
  }

  function Commit'(k: Kernel, id: Id, r: Revision, v: A.Verified, used: A.Consumption): Kernel
    requires id in k.transactions
  {
    k.(revisions := k.revisions[r.hash := r],
       head := r.hash,
       authorizations := k.authorizations[id := v.capability.digest],
       evidence := k.evidence[id := used],
       transactions := k.transactions[id := k.transactions[id].(state := Committed, revision := Some(r.hash))])
  }

  /** Checks before the capability is consumed: a finished retry, a revision to publish, or a refusal. */
  datatype Plan = Retry(revision: Revision) | Publishing(revision: Revision) | Refuse(fault: Fault)

  function PlanCommit(k: Kernel, id: Id, v: A.Verified): Plan
    requires k.head in k.revisions && id in k.transactions
  {
    var t := k.transactions[id];
    if t.state == Committed then
      if t.commands == [] then Refuse(InvariantViolation)
      else if !Bound(t, v) then Refuse(ApprovalMismatch)
      else if id !in k.authorizations || k.authorizations[id] != v.capability.digest || v.previous != Some(v.capability.digest) then
        Refuse(Replayed)
      else if t.revision.None? || t.revision.value !in k.revisions then Refuse(StaleRevision)
      else Retry(k.revisions[t.revision.value])
    else if v.previous.Some? then Refuse(Replayed)
    else if t.base != k.head then Refuse(StaleRevision)
    else if t.state != Verified || !t.gatePassed then Refuse(NotCommittable)
    else if t.commands == [] then Refuse(InvariantViolation)
    else if !Bound(t, v) then Refuse(ApprovalMismatch)
    else if HashOf(t.staged) == k.revisions[k.head].graphHash then Refuse(NotCommittable)
    else Publishing(NewRevision(k, t, v.capability.claims))
  }

  /** A commit that passed every check under its kernel's lock and has still to consume its capability. */
  datatype Ticket = Ticket(id: Id, verified: A.Verified, revision: Revision)

  /** Where the first half of a commit leaves it. */
  datatype Half = Answered(result: Result<Revision>) | Waiting(ticket: Ticket)

  /** First half: the authority verifies at `now`, and the kernel checks every binding and builds the revision. */
  function CommitChecks(cfg: Option<A.Config>, k: Kernel, s: A.State, id: Id, cap: A.Capability, now: int): (A.State, Half)
    requires k.head in k.revisions
  {
    if id !in k.transactions then (s, Answered(Err(UnknownTransaction)))
    else if cfg.None? then (s, Answered(Err(ApprovalMismatch)))
    else
      var (s1, verified) := A.Verify(cfg.value, s, cap, now);
      match verified
      case Refused(_) => (s1, Answered(Err(Unauthorized)))
      case Done(v) =>
        match PlanCommit(k, id, v)
        case Refuse(f) => (s1, Answered(Err(f)))
        case Retry(r) => (s1, Answered(Ok(r)))
        case Publishing(r) => (s1, Waiting(Ticket(id, v, r)))
  }

  /** Second half: the capability is consumed at `later`, whatever happened to the authority meanwhile, and only then is the revision published. */
  function CommitFinish(cfg: A.Config, k: Kernel, s: A.State, t: Ticket, later: int): (Kernel, A.State, Result<Revision>)
    requires t.id in k.transactions
  {
    var (s2, used) := A.Consume(cfg, s, t.verified, later);
    match used
    case Refused(f) => (k, s2, Err(if f == A.AlreadyConsumed then Replayed else Unauthorized))
    case Done(u) => (Commit'(k, t.id, t.revision, t.verified, u), s2, Ok(t.revision))
  }

  /** Both halves of one commit, with the calls `between` that others make on the authority after the first half. */
  function Commit(cfg: Option<A.Config>, k: Kernel, s: A.State, id: Id, cap: A.Capability, now: int, between: seq<(A.Call, int)>, later: int)
    : (Kernel, A.State, Result<Revision>)
    requires k.head in k.revisions
  {
    var (s1, half) := CommitChecks(cfg, k, s, id, cap, now);
    match half
    case Answered(r) => (k, s1, r)
    case Waiting(t) => CommitFinish(cfg.value, k, A.AfterAll(cfg.value, s1, between), t, later)
  }

  // ---------- Batches ----------

  /** Result of replaying a batch against a local transaction value. */
  datatype Batch = Batch(transaction: Transaction, keys: map<(Id, Id), Digest>, ids: map<Id, Digest>)

  /** One round of the batch loop, given what the command would do to the local transaction. */
  function Round(k: Kernel, b: Batch, c: Command, extended: Result<Transaction>): Result<Batch> {
    if (c.transactionId, c.key) in k.idempotency then
      if k.idempotency[(c.transactionId, c.key)] != CommandHash(c) then Err(CommandConflict) else Ok(b)
    else if c.id in k.commandIds then Err(CommandConflict)
    else if b.transaction.state != Open then Err(NotCommittable)
    else
      match extended
      case Err(f) => Err(f)
      case Ok(t) => Ok(Batch(t, b.keys[(c.transactionId, c.key) := CommandHash(c)], b.ids[c.id := CommandHash(c)]))
  }

  ghost function BatchFrom(k: Kernel, b: Batch, batch: seq<Command>): Result<Batch>
    decreases |batch|
  {
    if batch == [] then Ok(b)
    else
      match Round(k, b, batch[0], Extend(b.transaction, batch[0]))
      case Err(f) => Err(f)
      case Ok(b') => BatchFrom(k, b', batch[1..])
  }

  /** One transaction, one base, distinct command IDs and idempotency keys. */
  predicate WellShaped(batch: seq<Command>) {
    && batch != []
    && (forall i :: 0 <= i < |batch| ==> batch[i].transactionId == batch[0].transactionId && batch[i].base == batch[0].base)
    && (forall i, j :: 0 <= i < j < |batch| ==> batch[i].id != batch[j].id)
    && (forall i, j :: 0 <= i < j < |batch| ==> batch[i].key != batch[j].key)
  }

  /** The checks of a batch call and its publication, given what its replay on local values gives. */
  function StageBatchWith(k: Kernel, batch: seq<Command>, replayed: Result<Batch>): (Kernel, Result<Transaction>) {
    if !WellShaped(batch) then (k, Err(InvariantViolation))
    else if batch[0].transactionId !in k.transactions then (k, Err(UnknownTransaction))
    else if batch[0].base != k.transactions[batch[0].transactionId].base then (k, Err(StaleRevision))
    else
      match replayed
      case Err(f) => (k, Err(f))
      case Ok(b) => (Merged(k, batch[0].transactionId, b), Ok(b.transaction))
  }

  ghost function StageBatch(k: Kernel, batch: seq<Command>): (Kernel, Result<Transaction>) {
    StageBatchWith(k, batch,
      if batch != [] && batch[0].transactionId in k.transactions
      then BatchFrom(k, Batch(k.transactions[batch[0].transactionId], map[], map[]), batch) else Err(UnknownTransaction))
  }

  /** Staging the commands one at a time, stopping at the first refusal. */
  ghost function StageEach(k: Kernel, t: Transaction, batch: seq<Command>): (Kernel, Result<Transaction>)
    decreases |batch|
  {
    if batch == [] then (k, Ok(t))
    else
      var (k', r) := Stage(k, batch[0]);
      match r
      case Err(f) => (k', Err(f))
      case Ok(t') => StageEach(k', t', batch[1..])
  }

  /** The kernel a batch in progress will publish. */
  function Merged(k: Kernel, id: Id, b: Batch): Kernel {
    if b.keys == map[] then k
    else k.(transactions := k.transactions[id := b.transaction], idempotency := k.idempotency + b.keys, commandIds := k.commandIds + b.ids)
  }

  /** Entries gathered so far belong to commands outside `rest`. */
  ghost predicate Apart(b: Batch, rest: seq<Command>) {
    forall i :: 0 <= i < |rest| ==> (rest[i].transactionId, rest[i].key) !in b.keys && rest[i].id !in b.ids
  }

  ghost predicate Shaped(id: Id, base: Digest, rest: seq<Command>) {
    && (forall i :: 0 <= i < |rest| ==> rest[i].transactionId == id && rest[i].base == base)
    && (forall i, j :: 0 <= i < j < |rest| ==> rest[i].id != rest[j].id && rest[i].key != rest[j].key)
  }

  ghost predicate BatchState(k: Kernel, id: Id, b: Batch) {
    && id in k.transactions && (b.keys == map[] ==> b.ids == map[] && b.transaction == k.transactions[id])
  }

  lemma PlusUpdate<K, V>(m: map<K, V>, n: map<K, V>, x: K, v: V)
    ensures (m + n)[x := v] == m + n[x := v]
  {
  }

  lemma PlusNothing<K, V>(m: map<K, V>)
    ensures m + map[] == m
  {
  }

  lemma MergedMaps(k: Kernel, id: Id, b: Batch)
    requires BatchState(k, id, b)
    ensures var m := Merged(k, id, b);
            && m.transactions == k.transactions[id := b.transaction]
            && m.idempotency == k.idempotency + b.keys && m.commandIds == k.commandIds + b.ids
            && m == k.(transactions := m.transactions, idempotency := m.idempotency, commandIds := m.commandIds)
  {
    PlusNothing(k.idempotency);
    PlusNothing(k.commandIds);
    assert b.keys == map[] ==> k.transactions == k.transactions[id := b.transaction];
  }

  lemma PublishOnMerged(k: Kernel, id: Id, b: Batch, c: Command, t: Transaction)
    requires BatchState(k, id, b) && c.transactionId == id
    ensures var b' := Batch(t, b.keys[(id, c.key) := CommandHash(c)], b.ids[c.id := CommandHash(c)]);
            BatchState(k, id, b') && Publish(Merged(k, id, b), t, c) == Merged(k, id, b')
  {
    var b' := Batch(t, b.keys[(id, c.key) := CommandHash(c)], b.ids[c.id := CommandHash(c)]);
    assert (id, c.key) in b'.keys;
    MergedMaps(k, id, b);
    MergedMaps(k, id, b');
    PlusUpdate(k.idempotency, b.keys, (id, c.key), CommandHash(c));
    PlusUpdate(k.commandIds, b.ids, c.id, CommandHash(c));
    assert k.transactions[id := b.transaction][id := t] == k.transactions[id := t];
  }

  /** One stage call on the kernel merged so far does what one round of the batch loop does. */
  lemma RoundIsStage(k: Kernel, id: Id, b: Batch, c: Command, e: Result<Transaction>)
    requires BatchState(k, id, b) && c.transactionId == id && c.base == b.transaction.base
    requires (id, c.key) !in b.keys && c.id !in b.ids
    ensures id in Merged(k, id, b).transactions && Merged(k, id, b).transactions[id] == b.transaction
    ensures match Round(k, b, c, e)
            case Err(f) => StageWith(Merged(k, id, b), c, e) == (Merged(k, id, b), Err(f))
            case Ok(b') => StageWith(Merged(k, id, b), c, e) == (Merged(k, id, b'), Ok(b'.transaction)) && BatchState(k, id, b')
  {
    MergedMaps(k, id, b);
    if e.Ok? {
      PublishOnMerged(k, id, b, c, e.value);
    }
  }

  lemma RoundKeepsApart(k: Kernel, id: Id, b: Batch, e: Result<Transaction>, batch: seq<Command>)
    requires batch != [] && Shaped(id, b.transaction.base, batch) && Apart(b, batch)
    requires Round(k, b, batch[0], e).Ok?
    ensures Apart(Round(k, b, batch[0], e).value, batch[1..])
    ensures Shaped(id, b.transaction.base, batch[1..])
  {
    assert forall i :: 0 <= i < |batch| - 1 ==> batch[1..][i] == batch[i + 1];
  }

  lemma ExtendKeepsBase(t: Transaction, c: Command)
    requires Extend(t, c).Ok?
    ensures Extend(t, c).value.base == t.base
  {
  }

  lemma {:induction false} BatchIsEach(k: Kernel, id: Id, b: Batch, batch: seq<Command>)
    requires BatchState(k, id, b) && Shaped(id, b.transaction.base, batch) && Apart(b, batch)
    ensures match BatchFrom(k, b, batch)
            case Err(f) => StageEach(Merged(k, id, b), b.transaction, batch).1 == Err(f)
            case Ok(b') => StageEach(Merged(k, id, b), b.transaction, batch) == (Merged(k, id, b'), Ok(b'.transaction))
    decreases |batch|
  {
    if batch != [] {
      var c := batch[0];
      var e := Extend(b.transaction, c);
      RoundIsStage(k, id, b, c, e);
      assert Stage(Merged(k, id, b), c) == StageWith(Merged(k, id, b), c, e);
      if e.Ok? { ExtendKeepsBase(b.transaction, c); }
      match Round(k, b, c, e) {
        case Err(_) =>
        case Ok(b') =>
          RoundKeepsApart(k, id, b, e, batch);
          BatchIsEach(k, id, b', batch[1..]);
      }
    }
  }

  /**
   A batch succeeds exactly when it is well shaped and staging its commands one by one succeeds;
   then both end with the same transaction and the same kernel, and otherwise the batch changes nothing.
   */
  lemma BatchRefinesStaging(k: Kernel, batch: seq<Command>)
    ensures StageBatch(k, batch).1.Err? ==> StageBatch(k, batch).0 == k
    ensures WellShaped(batch) && batch[0].transactionId in k.transactions ==>
      (var t := k.transactions[batch[0].transactionId];
       if StageEach(k, t, batch).1.Ok? then StageBatch(k, batch) == StageEach(k, t, batch)
       else StageBatch(k, batch).1 == StageEach(k, t, batch).1)
    ensures !WellShaped(batch) ==> StageBatch(k, batch).1 == Err(InvariantViolation)
    ensures WellShaped(batch) && batch[0].transactionId !in k.transactions ==> StageBatch(k, batch).1 == Err(UnknownTransaction)
  {
    if WellShaped(batch) && batch[0].transactionId in k.transactions {
      var id := batch[0].transactionId;
      var t := k.transactions[id];
      if batch[0].base == t.base {
        BatchIsEach(k, id, Batch(t, map[], map[]), batch);
      } else {
        assert Stage(k, batch[0]) == (k, Err(StaleRevision));
      }
    }
  }
}
