/**
 What each kernel call answers and changes (backend/design_kernel/engine.py:224-737), stated on the
 transaction, the indexes, the head and the claims, field by field.
 */
module KernelEffects {
  import opened Graph
  import opened Commands
  import opened Digests
  import opened Kernel
  import opened KernelRuns
  import A = Authority

  // ---------- Starting ----------

  /** A new kernel holds exactly one revision, without parent, numbered zero, of the canonical graph. */
  lemma StartExactly(initial: Graph)
    ensures Start(initial).Ok? <==> Valid(Normalize(initial))
    ensures Start(initial).Ok? ==>
      var k := Start(initial).value;
      && |k.revisions| == 1 && k.head in k.revisions && k.transactions == map[] && k.idempotency == map[] && k.commandIds == map[]
      && k.authorizations == map[] && k.evidence == map[]
      && var r := k.revisions[k.head];
         && r.hash == k.head && r.hash == GenesisHash(r.graphHash) && r.parent.None? && r.sequence == 0
         && r.graph == Normalize(initial) && r.graphHash == GraphHash(Normalize(r.graph)) && r.commands == [] && r.report.None? && r.preview.None?
  {
  }

  /** A fork is refused unless the revision holds its exact canonical graph, and then keeps it as the head. */
  lemma ForkExactly(r: Revision)
    ensures StartFrom(r).Ok? <==> Valid(r.graph) && Normalize(r.graph) == r.graph && r.graphHash == GraphHash(r.graph)
    ensures StartFrom(r).Ok? ==>
      var k := StartFrom(r).value;
      && k.head == r.hash && k.revisions == map[r.hash := r] && k.transactions == map[] && k.idempotency == map[]
      && k.commandIds == map[] && k.authorizations == map[] && k.evidence == map[]
  {
  }

  // ---------- Begin ----------

  /** Beginning again answers the transaction; a new one must start at the head, stages its graph and has no commands. */
  lemma BeginExactly(k: Kernel, id: Id, base: Digest)
    requires k.head in k.revisions
    ensures var (k', r) := Begin(k, id, base);
            if id in k.transactions then
              k' == k && r == (if k.transactions[id].base == base then Ok(k.transactions[id]) else Err(CommandConflict))
            else if base != k.head then k' == k && r == Err(StaleRevision)
            else
              && r.Ok? && k' == k.(transactions := k.transactions[id := r.value])
              && var t, g := r.value, k.revisions[base].graph;
                 && t.id == id && t.base == base && t.staged == g && t.commands == [] && t.state == Open
                 && t.report.None? && !t.gatePassed && t.verifiedPreview.None? && t.revision.None?
                 && t.preview == PreviewHash(base, id, GraphHash(Normalize(g)), [])
  {
  }

  // ---------- Stage ----------

  /** The transaction with one more command and no evidence, on a new preview digest. */
  ghost predicate OneMore(t: Transaction, g: Graph, c: Command, u: Transaction) {
    && u.id == t.id && u.base == t.base && u.state == t.state && u.revision == t.revision
    && u.staged == g && u.commands == t.commands + [c]
    && u.report.None? && u.verifiedPreview.None? && !u.gatePassed
    && u.preview == PreviewHash(t.base, t.id, GraphHash(Normalize(g)), HashesOf(t.commands + [c]))
  }

  lemma ExtendExactly(t: Transaction, c: Command)
    ensures match Step(t.staged, c.op)
            case Err(f) => Extend(t, c) == Err(f)
            case Ok(g) => if g == t.staged then Extend(t, c) == Err(CommandConflict)
                          else Extend(t, c).Ok? && OneMore(t, g, c, Extend(t, c).value)
  {
  }

  /** Before the command is looked at: an unknown transaction, another base, a known key or ID, or a transaction that is not open. */
  ghost predicate Decided(k: Kernel, c: Command, answer: Result<Transaction>) {
    if c.transactionId !in k.transactions then answer == Err(UnknownTransaction)
    else
      var t := k.transactions[c.transactionId];
      if c.base != t.base then answer == Err(StaleRevision)
      else if (c.transactionId, c.key) in k.idempotency then
        answer == (if k.idempotency[(c.transactionId, c.key)] == CommandHash(c) then Ok(t) else Err(CommandConflict))
      else if c.id in k.commandIds then answer == Err(CommandConflict)
      else t.state != Open && answer == Err(NotCommittable)
  }

  /** An undecided command is staged exactly when its extension succeeds, and enters both indexes. */
  ghost predicate Staged(k: Kernel, c: Command, extended: Result<Transaction>, k': Kernel, r: Result<Transaction>) {
    && c.transactionId in k.transactions && r == extended
    && k' == if r.Ok? then
         k.(transactions := k.transactions[c.transactionId := r.value],
            idempotency := k.idempotency[(c.transactionId, c.key) := CommandHash(c)],
            commandIds := k.commandIds[c.id := CommandHash(c)])
       else k
  }

  lemma StageWithExactly(k: Kernel, c: Command, e: Result<Transaction>)
    ensures var (k', r) := StageWith(k, c, e); (k' == k && Decided(k, c, r)) || Staged(k, c, e, k', r)
    ensures (exists answer :: Decided(k, c, answer)) ==> Decided(k, c, StageWith(k, c, e).1) && StageWith(k, c, e).0 == k
  {
  }

  /**
   Staging: a decided command is answered and changes nothing; any other is staged exactly when its
   step is valid and has an effect, and then the transaction, both indexes and nothing else change.
   */
  lemma StageExactly(k: Kernel, c: Command)
    ensures var (k', r) := Stage(k, c);
            || (k' == k && Decided(k, c, r))
            || (&& c.transactionId in k.transactions
                && Staged(k, c, Extend(k.transactions[c.transactionId], c), k', r) && forall answer :: !Decided(k, c, answer))
  {
    StageWithExactly(k, c, if c.transactionId in k.transactions then Extend(k.transactions[c.transactionId], c) else Err(UnknownTransaction));
  }

  /** In a reachable kernel a reused key is answered exactly when it brings the very command accepted under it. */
  lemma RepeatedCommandExactly(k: Kernel, c: Command)
    requires IndexOk(k) && c.transactionId in k.transactions && c.base == k.transactions[c.transactionId].base
    requires (c.transactionId, c.key) in k.idempotency
    ensures Stage(k, c).0 == k
    ensures Stage(k, c).1 == if c in k.transactions[c.transactionId].commands then Ok(k.transactions[c.transactionId]) else Err(CommandConflict)
  {
    var e := (c.transactionId, c.key);
    assert KeyOwned(k.transactions, k.idempotency, e);
    assert Indexed(k.transactions, k.idempotency, k.commandIds, c.transactionId, c);
    StageExactly(k, c);
  }

  /** A round of a batch treats a key already published in the same way. */
  lemma RepeatedInBatch(k: Kernel, b: Batch, c: Command, e: Result<Transaction>)
    requires (c.transactionId, c.key) in k.idempotency
    ensures Round(k, b, c, e) == if k.idempotency[(c.transactionId, c.key)] == CommandHash(c) then Ok(b) else Err(CommandConflict)
  {
  }

  // ---------- Evidence and rollback ----------

  /**
   Evidence must be for the current preview.  An open transaction takes it and is verified exactly if
   the gate passed; a verified one only repeats its own; any other is refused.
   */
  lemma VerifyExactly(k: Kernel, id: Id, report: Digest, gate: bool, claimed: Option<Digest>)
    ensures var (k', r) := Verify(k, id, report, gate, claimed);
            if id !in k.transactions then k' == k && r == Err(UnknownTransaction)
            else
              var t := k.transactions[id];
              if claimed.Some? && claimed.value != t.preview then k' == k && r == Err(ApprovalMismatch)
              else if t.state == Verified then
                k' == k && r == (if t.report == Some(report) && t.gatePassed == gate && t.verifiedPreview == Some(t.preview) then Ok(t) else Err(CommandConflict))
              else if t.state != Open then k' == k && r == Err(NotCommittable)
              else
                && r.Ok? && k' == k.(transactions := k.transactions[id := r.value])
                && var u := r.value;
                   && u.report == Some(report) && u.gatePassed == gate && u.verifiedPreview == Some(t.preview)
                   && u.state == (if gate then Verified else Open)
                   && u.id == t.id && u.base == t.base && u.staged == t.staged && u.commands == t.commands
                   && u.preview == t.preview && u.revision == t.revision
  {
  }

  /** Rolling back ends every unfinished transaction without evidence, once; committed ones are refused. */
  lemma RollbackExactly(k: Kernel, id: Id)
    ensures var (k', r) := Rollback(k, id);
            if id !in k.transactions then k' == k && r == Err(UnknownTransaction)
            else
              var t := k.transactions[id];
              if t.state == Committed then k' == k && r == Err(NotCommittable)
              else if t.state == RolledBack then k' == k && r == Ok(t)
              else
                && r.Ok? && k' == k.(transactions := k.transactions[id := r.value])
                && var u := r.value;
                   && u.state == RolledBack && u.report.None? && u.verifiedPreview.None? && !u.gatePassed
                   && u.id == t.id && u.base == t.base && u.staged == t.staged && u.commands == t.commands
                   && u.preview == t.preview && u.revision == t.revision
  {
  }

  // ---------- Commit ----------

  /** The claims name exactly this transaction as it is staged and verified. */
  ghost predicate ClaimsFit(t: Transaction, c: A.Claims) {
    && c.transactionId == t.id && c.projectId == t.staged.projectId
    && c.base == t.base && c.head == t.base
    && c.commands == HashesOf(t.commands) && c.graph == GraphHash(Normalize(t.staged))
    && c.preview == t.preview && c.verifiedPreview == t.preview && t.verifiedPreview == Some(t.preview)
    && t.report == Some(c.report) && c.subject == ReleaseHash(t.base, t.preview, c.report)
    && c.gatePassed && t.gatePassed
  }

  /** What the authority returns for a capability: the approval the claims were made from. */
  ghost predicate ApprovalFits(c: A.Claims, a: A.Approval) {
    && a.kind == "release" && c.approvalKind == a.kind && a.gatePassed
    && c.approvalId == a.id && c.approvalRun == a.runId && c.approvalDigest == a.digest && c.approvalPrincipal == a.principal
    && c.approvalDecidedAt == a.decidedAt && c.approvalExpiresAt == a.expiresAt
  }

  lemma VerifiedApprovalFits(cfg: A.Config, s: A.State, cap: A.Capability, now: int)
    requires A.Verify(cfg, s, cap, now).1.Done?
    ensures var v := A.Verify(cfg, s, cap, now).1.value;
            v.capability == cap && ApprovalFits(cap.claims, v.approval)
            && v.previous == if cap.claims.nonce in s.consumed then Some(s.consumed[cap.claims.nonce]) else None
  {
  }

  /** The first plan publishes exactly for a verified transaction on the head with commands and a change, under fitting claims and an unused nonce. */
  lemma PublishesExactly(k: Kernel, id: Id, v: A.Verified)
    requires k.head in k.revisions && id in k.transactions && ApprovalFits(v.capability.claims, v.approval)
    ensures PlanCommit(k, id, v).Publishing? <==>
      var t := k.transactions[id];
      && t.state == Verified && t.base == k.head && t.commands != [] && v.previous.None?
      && ClaimsFit(t, v.capability.claims) && GraphHash(Normalize(t.staged)) != k.revisions[k.head].graphHash
  {
  }

  /** A committed transaction is answered exactly when the capability is the one it used, and fits it. */
  lemma RetriesExactly(k: Kernel, id: Id, v: A.Verified)
    requires k.head in k.revisions && id in k.transactions && ApprovalFits(v.capability.claims, v.approval)
    ensures PlanCommit(k, id, v).Retry? <==>
      var t := k.transactions[id];
      && t.state == Committed && t.commands != [] && ClaimsFit(t, v.capability.claims)
      && id in k.authorizations && k.authorizations[id] == v.capability.digest && v.previous == Some(v.capability.digest)
      && t.revision.Some? && t.revision.value in k.revisions
  {
  }

  /** Which fault refuses a commit whose capability the authority has verified. */
  lemma CommitRefusalsExactly(k: Kernel, id: Id, v: A.Verified)
    requires k.head in k.revisions && id in k.transactions && ApprovalFits(v.capability.claims, v.approval)
    ensures var t, c, plan := k.transactions[id], v.capability.claims, PlanCommit(k, id, v);
            var current := t.state != Committed && v.previous.None? && t.base == k.head;
            var ready := current && t.state == Verified && t.gatePassed;
            var its := id in k.authorizations && k.authorizations[id] == v.capability.digest && v.previous == Some(v.capability.digest);
            && (plan == Refuse(ApprovalMismatch) <==> (t.state == Committed || ready) && t.commands != [] && !ClaimsFit(t, c))
            && (plan == Refuse(InvariantViolation) <==> (t.state == Committed || ready) && t.commands == [])
            && (plan == Refuse(NotCommittable) <==>
                  current && (!ready || (t.commands != [] && ClaimsFit(t, c) && GraphHash(Normalize(t.staged)) == k.revisions[k.head].graphHash)))
            && (plan == Refuse(Replayed) <==>
                  if t.state == Committed then t.commands != [] && ClaimsFit(t, c) && !its else v.previous.Some?)
            && (plan == Refuse(StaleRevision) <==>
                  if t.state == Committed then t.commands != [] && ClaimsFit(t, c) && its && !(t.revision.Some? && t.revision.value in k.revisions)
                  else v.previous.None? && t.base != k.head)
  {
  }

  /**
   The first half of a commit goes on to consume exactly when the capability is authentic and unused, and
   the transaction is verified, on the head, with commands and a change, and is what the claims name.
   */
  lemma CommitWaitsExactly(cfg: A.Config, k: Kernel, s: A.State, id: Id, cap: A.Capability, now: int)
    requires k.head in k.revisions
    ensures CommitChecks(Some(cfg), k, s, id, cap, now).1.Waiting? <==>
      && id in k.transactions && A.Authentic(cfg, s, cap, now) && cap.claims.nonce !in s.consumed
      && var t := k.transactions[id];
         && t.state == Verified && t.base == k.head && t.commands != []
         && ClaimsFit(t, cap.claims) && GraphHash(Normalize(t.staged)) != k.revisions[k.head].graphHash
  {
    A.VerifySucceedsExactly(cfg, s, cap, now);
    if id in k.transactions && A.Verify(cfg, s, cap, now).1.Done? {
      VerifiedApprovalFits(cfg, s, cap, now);
      PublishesExactly(k, id, A.Verify(cfg, s, cap, now).1.value);
    }
  }

  /** The revision a waiting commit will publish: the next one, of the staged graph, with the transaction's commands and report. */
  lemma TicketExactly(cfg: A.Config, k: Kernel, s: A.State, id: Id, cap: A.Capability, now: int)
    requires k.head in k.revisions && CommitChecks(Some(cfg), k, s, id, cap, now).1.Waiting?
    ensures var ticket, t, p := CommitChecks(Some(cfg), k, s, id, cap, now).1.ticket, k.transactions[id], k.revisions[k.head];
            var r := ticket.revision;
            && ticket.id == id && ticket.verified.capability == cap && t.report.Some?
            && r.parent == Some(p.hash) && r.sequence == p.sequence + 1 && r.graph == Normalize(t.staged)
            && r.graphHash == GraphHash(Normalize(r.graph)) && r.commands == HashesOf(t.commands) && r.report == t.report && r.preview == Some(t.preview)
            && r.hash == RevisionHash(p.hash, r.sequence, r.graphHash, r.commands, t.report.value, t.preview)
  {
    CommitWaitsExactly(cfg, k, s, id, cap, now);
  }

  /** The second half publishes exactly when the consumption succeeds: a new head, the evidence, and a committed transaction; else nothing. */
  lemma FinishExactly(cfg: A.Config, k: Kernel, s: A.State, t: Ticket, later: int)
    requires t.id in k.transactions
    ensures var (k', s', r) := CommitFinish(cfg, k, s, t, later);
            && s' == A.Consume(cfg, s, t.verified, later).0
            && match A.Consume(cfg, s, t.verified, later).1
               case Refused(f) => k' == k && r == Err(if f == A.AlreadyConsumed then Replayed else Unauthorized)
               case Done(u) =>
                 && r == Ok(t.revision) && k'.head == t.revision.hash && k'.revisions == k.revisions[t.revision.hash := t.revision]
                 && k'.authorizations == k.authorizations[t.id := t.verified.capability.digest] && k'.evidence == k.evidence[t.id := u]
                 && k'.transactions == k.transactions[t.id := k.transactions[t.id].(state := Committed, revision := Some(t.revision.hash))]
                 && k'.idempotency == k.idempotency && k'.commandIds == k.commandIds
  {
  }
}
