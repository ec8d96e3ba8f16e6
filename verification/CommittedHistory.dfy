/**
 Committed history is permanent: in every run of any number of kernels, revisions are never
 replaced and committed transactions never change, so a later successful retry of a commit
 returns the very revision it created (backend/design_kernel/engine.py:503-595).
 */
module CommittedHistory {
  import opened Graph
  import opened Commands
  import opened Digests
  import opened Kernel
  import opened KernelRuns
  import opened KernelEffects
  import S = SharedAuthority
  import A = Authority

  ghost predicate Kept(k: Kernel, l: Kernel, id: Id) {
    id in k.transactions && k.transactions[id].state == Committed ==> id in l.transactions && l.transactions[id] == k.transactions[id]
  }

  /** What was committed in `k` is unchanged in `l`. */
  ghost predicate Permanent(k: Kernel, l: Kernel) {
    && (forall h :: h in k.revisions ==> h in l.revisions && l.revisions[h] == k.revisions[h])
    && (forall id :: Kept(k, l, id))
  }

  lemma Transitive(k: Kernel, l: Kernel, m: Kernel)
    requires Permanent(k, l) && Permanent(l, m)
    ensures Permanent(k, m)
  {
    forall id ensures Kept(k, m, id) { assert Kept(k, l, id) && Kept(l, m, id); }
  }

  lemma StageWithPermanent(k: Kernel, c: Command, e: Result<Transaction>)
    ensures Permanent(k, StageWith(k, c, e).0)
  {
  }

  lemma StagePermanent(k: Kernel, c: Command)
    ensures Permanent(k, Stage(k, c).0)
  {
    StageWithPermanent(k, c, if c.transactionId in k.transactions then Extend(k.transactions[c.transactionId], c) else Err(UnknownTransaction));
  }

  lemma {:induction false} StageEachPermanent(k: Kernel, t: Transaction, batch: seq<Command>)
    ensures Permanent(k, StageEach(k, t, batch).0)
    decreases |batch|
  {
    if batch != [] {
      StagePermanent(k, batch[0]);
      var (l, r) := Stage(k, batch[0]);
      if r.Ok? {
        StageEachPermanent(l, r.value, batch[1..]);
        Transitive(k, l, StageEach(l, r.value, batch[1..]).0);
      }
    }
  }

  lemma StageBatchPermanent(k: Kernel, batch: seq<Command>)
    ensures Permanent(k, StageBatch(k, batch).0)
  {
    BatchRefinesStaging(k, batch);
    if StageBatch(k, batch).1.Ok? {
      StageEachPermanent(k, k.transactions[batch[0].transactionId], batch);
    }
  }

  lemma PublishedPermanent(k: Kernel, id: Id, r: Revision, v: A.Verified, used: A.Consumption)
    requires id in k.transactions && k.transactions[id].state != Committed && r.hash !in k.revisions
    ensures Permanent(k, Commit'(k, id, r, v, used))
  {
  }

  lemma PublishingIsNew(k: Kernel, id: Id, v: A.Verified)
    requires KernelOk(k) && id in k.transactions && PlanCommit(k, id, v).Publishing?
    ensures PlanCommit(k, id, v).revision.hash !in k.revisions && k.transactions[id].state != Committed
  {
    PlanFacts(k, id, v);
    assert RevisionOk(k, k.head);
    NewRevisionFacts(k, k.transactions[id], v.capability.claims);
    NewRevisionIsNew(k, PlanCommit(k, id, v).revision.hash);
  }

  lemma FinishPermanent(cfg: A.Config, k: Kernel, s: A.State, t: Ticket, later: int)
    requires KernelOk(k) && TicketOk(k, t)
    ensures Permanent(k, CommitFinish(cfg, k, s, t, later).0)
  {
    PublishingIsNew(k, t.id, t.verified);
    if A.Consume(cfg, s, t.verified, later).1.Done? {
      PublishedPermanent(k, t.id, t.revision, t.verified, A.Consume(cfg, s, t.verified, later).1.value);
    }
  }

  lemma AddedPermanent(k: Kernel, id: Id, t: Transaction)
    requires id !in k.transactions
    ensures Permanent(k, k.(transactions := k.transactions[id := t]))
  {
  }

  lemma BeginPermanent(k: Kernel, id: Id, base: Digest)
    requires k.head in k.revisions
    ensures Permanent(k, Begin(k, id, base).0)
  {
    PermanentSame(k);
    if id !in k.transactions { AddedPermanent(k, id, NewTransaction(k, id)); }
  }

  lemma VerifyPermanent(k: Kernel, id: Id, report: Digest, gate: bool, claimed: Option<Digest>)
    ensures Permanent(k, Verify(k, id, report, gate, claimed).0)
  {
  }

  lemma RollbackPermanent(k: Kernel, id: Id)
    ensures Permanent(k, Rollback(k, id).0)
  {
  }

  /** Every call but a commit keeps what was committed. */
  lemma LocalPermanent(k: Kernel, call: S.Call)
    requires k.head in k.revisions
    ensures Permanent(k, S.LocalAfter(k, call))
  {
    match call
    case BeginTransaction(id, base) => BeginPermanent(k, id, base);
    case StageCommand(c) => StagePermanent(k, c);
    case StageCommands(batch) => StageBatchPermanent(k, batch);
    case RecordVerification(id, report, gate, claimed) => VerifyPermanent(k, id, report, gate, claimed);
    case RollBack(id) => RollbackPermanent(k, id);
    case _ =>
  }

  lemma FinishAfterPermanent(cfg: A.Config, p: S.Slot, s: A.State, later: int)
    requires S.SlotOk(p)
    ensures Permanent(p.kernel, S.FinishAfter(cfg, p, s, later).0.kernel)
  {
    if p.waiting.Some? { FinishPermanent(cfg, p.kernel, s, p.waiting.value, later); }
  }

  /** What a call leaves of the kernel. */
  lemma SlotKernel(cfg: A.Config, p: S.Slot, s: A.State, call: S.Call)
    requires p.kernel.head in p.kernel.revisions
    ensures S.SlotAfter(cfg, p, s, call).0.kernel ==
      if call.FinishCommit? then S.FinishAfter(cfg, p, s, call.later).0.kernel
      else if call.CheckCommit? || p.waiting.Some? then p.kernel else S.LocalAfter(p.kernel, call)
  {
  }

  lemma SlotPermanent(cfg: A.Config, p: S.Slot, s: A.State, call: S.Call)
    requires S.SlotOk(p)
    ensures Permanent(p.kernel, S.SlotAfter(cfg, p, s, call).0.kernel)
  {
    SlotKernel(cfg, p, s, call);
    PermanentSame(p.kernel);
    if call.FinishCommit? { FinishAfterPermanent(cfg, p, s, call.later); } else { LocalPermanent(p.kernel, call); }
  }

  lemma PermanentSame(k: Kernel)
    ensures Permanent(k, k)
  {
  }

  lemma ActPermanent(cfg: A.Config, y: S.System, act: S.Act, i: nat)
    requires S.SystemOk(cfg, y) && i < |y.slots|
    ensures |y.slots| <= |S.After(cfg, y, act).slots| && Permanent(y.slots[i].kernel, S.After(cfg, y, act).slots[i].kernel)
  {
    assert S.SlotOk(y.slots[i]);
    PermanentSame(y.slots[i].kernel);
    S.ActSlots(cfg, y, act, i);
    if act.OnKernel? && act.i == i {
      SlotPermanent(cfg, y.slots[i], y.authority, act.call);
    }
  }

  /** In every run, from every reachable system, what a kernel has committed stays as it is. */
  lemma {:induction false} CommittedForGood(cfg: A.Config, y: S.System, acts: seq<S.Act>, i: nat)
    requires S.SystemOk(cfg, y) && i < |y.slots|
    ensures |y.slots| <= |S.AfterAll(cfg, y, acts).slots| && Permanent(y.slots[i].kernel, S.AfterAll(cfg, y, acts).slots[i].kernel)
    decreases |acts|
  {
    if acts != [] {
      var z := S.After(cfg, y, acts[0]);
      S.ActKeeps(cfg, y, acts[0]);
      ActPermanent(cfg, y, acts[0], i);
      CommittedForGood(cfg, z, acts[1..], i);
      Transitive(y.slots[i].kernel, z.slots[i].kernel, S.AfterAll(cfg, y, acts).slots[i].kernel);
    }
  }

  /** The first half answers for a committed transaction; it never gets to consume again. */
  lemma RetryRevision(cfg: A.Config, k: Kernel, s: A.State, id: Id, cap: A.Capability, now: int)
    requires k.head in k.revisions && id in k.transactions && k.transactions[id].state == Committed
    ensures var half := CommitChecks(Some(cfg), k, s, id, cap, now).1;
            && half.Answered?
            && (half.result.Ok? ==> && k.transactions[id].revision.Some? && k.transactions[id].revision.value in k.revisions
                                    && half.result.value == k.revisions[k.transactions[id].revision.value])
  {
  }

  lemma RecordedRevision(k: Kernel, id: Id)
    requires KernelOk(k) && id in k.transactions && k.transactions[id].state == Committed
    ensures k.transactions[id].revision.Some? && k.transactions[id].revision.value in k.revisions
  {
    assert TransactionOk(k, id);
  }

  /** However much later a commit is retried, its first half answers: with the revision it created, or with a refusal. */
  lemma LateRetryReturnsSameRevision(cfg: A.Config, y: S.System, acts: seq<S.Act>, i: nat, id: Id, cap: A.Capability, now: int)
    requires S.SystemOk(cfg, y) && i < |y.slots|
    requires id in y.slots[i].kernel.transactions && y.slots[i].kernel.transactions[id].state == Committed
    ensures var k, z := y.slots[i].kernel, S.AfterAll(cfg, y, acts);
            && i < |z.slots| && z.slots[i].kernel.head in z.slots[i].kernel.revisions
            && k.transactions[id].revision.Some? && k.transactions[id].revision.value in k.revisions
            && var half := CommitChecks(Some(cfg), z.slots[i].kernel, z.authority, id, cap, now).1;
               half.Answered? && (half.result.Ok? ==> half.result.value == k.revisions[k.transactions[id].revision.value])
  {
    CommittedForGood(cfg, y, acts, i);
    S.RunKeeps(cfg, y, acts);
    var k, z := y.slots[i].kernel, S.AfterAll(cfg, y, acts);
    assert S.SlotOk(y.slots[i]) && S.SlotOk(z.slots[i]);
    RecordedRevision(k, id);
    assert Kept(k, z.slots[i].kernel, id);
    RetryRevision(cfg, z.slots[i].kernel, z.authority, id, cap, now);
  }

  // ---------- A commit that nobody contests ----------

  /** What a commit of `id` with `cap` needs of its kernel and of the authority at `now`. */
  ghost predicate Ready(cfg: A.Config, k: Kernel, s: A.State, id: Id, cap: A.Capability, now: int) {
    && k.head in k.revisions && id in k.transactions && A.Authentic(cfg, s, cap, now) && cap.claims.nonce !in s.consumed
    && var t := k.transactions[id];
       && t.state == Verified && t.base == k.head && t.commands != []
       && ClaimsFit(t, cap.claims) && GraphHash(Normalize(t.staged)) != k.revisions[k.head].graphHash
  }

  lemma CheckAct(cfg: A.Config, y: S.System, i: nat, k: Kernel, id: Id, cap: A.Capability, now: int, s': A.State, ticket: Ticket)
    requires i < |y.slots| && y.slots[i] == S.Slot(k, None) && k.head in k.revisions
    requires CommitChecks(Some(cfg), k, y.authority, id, cap, now) == (s', Waiting(ticket))
    ensures S.After(cfg, y, S.OnKernel(i, S.CheckCommit(id, cap, now))) == S.System(y.slots[i := S.Slot(k, Some(ticket))], s')
  {
  }

  lemma FinishAct(cfg: A.Config, y: S.System, i: nat, later: int)
    requires i < |y.slots| && y.slots[i].kernel.head in y.slots[i].kernel.revisions
    requires y.slots[i].waiting.Some? && y.slots[i].waiting.value.id in y.slots[i].kernel.transactions
    ensures var (k', s', _) := CommitFinish(cfg, y.slots[i].kernel, y.authority, y.slots[i].waiting.value, later);
            S.After(cfg, y, S.OnKernel(i, S.FinishCommit(later))) == S.System(y.slots[i := S.Slot(k', None)], s')
  {
  }

  lemma StillAuthentic(cfg: A.Config, s: A.State, cap: A.Capability, now: int, later: int)
    requires A.Authentic(cfg, s, cap, now) && A.Authentic(cfg, s, cap, later) && now <= later
    ensures var s' := A.Verify(cfg, s, cap, now).0;
            s'.consumed == s.consumed && A.Authentic(cfg, s', cap, later) && A.Verify(cfg, s, cap, now).1.Done? && A.Verify(cfg, s, cap, now).1.value.token == cfg.token
  {
    A.VerifySucceedsExactly(cfg, s, cap, now);
  }

  lemma ChecksVerify(cfg: A.Config, k: Kernel, s: A.State, id: Id, cap: A.Capability, now: int)
    requires k.head in k.revisions && CommitChecks(Some(cfg), k, s, id, cap, now).1.Waiting?
    ensures var (s', half) := CommitChecks(Some(cfg), k, s, id, cap, now);
            && s' == A.Verify(cfg, s, cap, now).0 && A.Verify(cfg, s, cap, now).1 == A.Done(half.ticket.verified)
            && half.ticket.id == id && id in k.transactions
  {
  }

  /** A ready commit that is finished in time, before anybody else acts, is committed: the head, the transaction and the nonce all say so. */
  lemma UncontestedCommit(cfg: A.Config, y: S.System, i: nat, id: Id, cap: A.Capability, now: int, later: int)
    requires i < |y.slots| && y.slots[i].waiting.None? && Ready(cfg, y.slots[i].kernel, y.authority, id, cap, now)
    requires now <= later && A.Authentic(cfg, y.authority, cap, later)
    ensures var z := S.After(cfg, S.After(cfg, y, S.OnKernel(i, S.CheckCommit(id, cap, now))), S.OnKernel(i, S.FinishCommit(later)));
            && |z.slots| == |y.slots| && (forall j :: 0 <= j < |y.slots| && j != i ==> z.slots[j] == y.slots[j])
            && z.authority.consumed == y.authority.consumed[cap.claims.nonce := cap.digest]
            && var k, k' := y.slots[i].kernel, z.slots[i].kernel;
               && z.slots[i].waiting.None? && id in k'.transactions && k'.head in k'.revisions
               && k'.transactions[id] == k.transactions[id].(state := Committed, revision := Some(k'.head))
               && k'.revisions[k'.head].graph == Normalize(k.transactions[id].staged)
               && k'.authorizations == k.authorizations[id := cap.digest]
  {
    var k, s := y.slots[i].kernel, y.authority;
    CommitWaitsExactly(cfg, k, s, id, cap, now);
    TicketExactly(cfg, k, s, id, cap, now);
    ChecksVerify(cfg, k, s, id, cap, now);
    var (s1, half) := CommitChecks(Some(cfg), k, s, id, cap, now);
    CheckAct(cfg, y, i, k, id, cap, now, s1, half.ticket);
    var y1 := S.After(cfg, y, S.OnKernel(i, S.CheckCommit(id, cap, now)));
    StillAuthentic(cfg, s, cap, now, later);
    A.ConsumeSucceedsExactly(cfg, s1, half.ticket.verified, later);
    FinishAct(cfg, y1, i, later);
    FinishExactly(cfg, k, s1, half.ticket, later);
  }
}
