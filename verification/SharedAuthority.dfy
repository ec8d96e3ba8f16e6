/**
 Any number of kernels that share one commit authority and consume capabilities only through
 `commit` (backend/design_kernel/engine.py:503-595, commit_authority.py:686-718).  A commit takes the authority's
 lock twice, to verify and to consume, and acts of other kernels and of the authority may come
 between.  Over every such run, consumed nonces and committed transactions correspond one to one.
 */
module SharedAuthority {
  import opened Graph
  import opened Commands
  import opened Digests
  import opened Kernel
  import opened KernelRuns
  import A = Authority

  datatype Call =
    | BeginTransaction(id: Id, base: Digest)
    | StageCommand(command: Command)
    | StageCommands(batch: seq<Command>)
    | RecordVerification(id: Id, report: Digest, gate: bool, claimed: Option<Digest>)
    | RollBack(id: Id)
    /** First half of a commit: verify, check, build the revision. */
    | CheckCommit(id: Id, capability: A.Capability, now: int)
    /** Second half: consume and publish. */
    | FinishCommit(later: int)

  datatype Act =
    | NewKernel(initial: Graph)
    | Fork(revision: Revision)
    | OnKernel(i: nat, call: Call)
    | OnAuthority(authorityCall: A.Call, now: int)

  /** A kernel and the commit that holds its lock, if one does. */
  datatype Slot = Slot(kernel: Kernel, waiting: Option<Ticket>)

  datatype System = System(slots: seq<Slot>, authority: A.State)

  const EMPTY := System([], A.INITIAL)

  /** Calls that leave the authority alone. */
  ghost function LocalAfter(k: Kernel, call: Call): Kernel
    requires k.head in k.revisions
  {
    match call
    case BeginTransaction(id, base) => Begin(k, id, base).0
    case StageCommand(c) => Stage(k, c).0
    case StageCommands(batch) => StageBatch(k, batch).0
    case RecordVerification(id, report, gate, claimed) => Verify(k, id, report, gate, claimed).0
    case RollBack(id) => Rollback(k, id).0
    case _ => k
  }

  function CheckAfter(cfg: A.Config, p: Slot, s: A.State, id: Id, cap: A.Capability, now: int): (Slot, A.State)
    requires p.kernel.head in p.kernel.revisions
  {
    var (s', half) := CommitChecks(Some(cfg), p.kernel, s, id, cap, now);
    (Slot(p.kernel, if half.Waiting? then Some(half.ticket) else None), s')
  }

  function FinishAfter(cfg: A.Config, p: Slot, s: A.State, later: int): (Slot, A.State) {
    if p.waiting.Some? && p.waiting.value.id in p.kernel.transactions then
      var (k, s', _) := CommitFinish(cfg, p.kernel, s, p.waiting.value, later);
      (Slot(k, None), s')
    else (p, s)
  }

  /** A commit between its halves holds the kernel's lock: only its own second half can run on that kernel. */
  ghost function SlotAfter(cfg: A.Config, p: Slot, s: A.State, call: Call): (Slot, A.State)
    requires p.kernel.head in p.kernel.revisions
  {
    match call
    case FinishCommit(later) => FinishAfter(cfg, p, s, later)
    case CheckCommit(id, cap, now) => if p.waiting.Some? then (p, s) else CheckAfter(cfg, p, s, id, cap, now)
    case _ => if p.waiting.Some? then (p, s) else (Slot(LocalAfter(p.kernel, call), None), s)
  }

  /** The next system; an act that cannot happen changes nothing. */
  ghost function After(cfg: A.Config, y: System, act: Act): System {
    match act
    case NewKernel(initial) =>
      if WfGraph(initial) && Start(initial).Ok? then y.(slots := y.slots + [Slot(Start(initial).value, None)]) else y
    case Fork(r) =>
      if WfGraph(r.graph) && StartFrom(r).Ok? then y.(slots := y.slots + [Slot(StartFrom(r).value, None)]) else y
    case OnKernel(i, call) =>
      if i < |y.slots| && y.slots[i].kernel.head in y.slots[i].kernel.revisions then
        var (p, s) := SlotAfter(cfg, y.slots[i], y.authority, call);
        System(y.slots[i := p], s)
      else y
    case OnAuthority(call, now) =>
      if call.DoConsume? then y else y.(authority := A.After(cfg, y.authority, call, now))
  }

  ghost function AfterAll(cfg: A.Config, y: System, acts: seq<Act>): System
    decreases |acts|
  {
    if acts == [] then y else AfterAll(cfg, After(cfg, y, acts[0]), acts[1..])
  }

  // ---------- The correspondence ----------

  /** Transaction `id` of kernel `i` was committed with the capability `d`. */
  ghost predicate Used(y: System, i: nat, id: Id, d: A.AuthDigest) {
    i < |y.slots| && id in y.slots[i].kernel.authorizations && y.slots[i].kernel.authorizations[id] == d
  }

  ghost predicate Paid(y: System, i: nat, id: Id, d: A.AuthDigest) {
    Used(y, i, id, d) ==> d.claims.nonce in y.authority.consumed && y.authority.consumed[d.claims.nonce] == d
  }

  ghost predicate Spent(y: System, n: Id) {
    n in y.authority.consumed ==> exists i: nat, id :: Used(y, i, id, y.authority.consumed[n])
  }

  ghost predicate OneUser(y: System, i: nat, id: Id, j: nat, jd: Id, d: A.AuthDigest) {
    Used(y, i, id, d) && Used(y, j, jd, d) ==> i == j && id == jd
  }

  ghost predicate OneToOne(y: System) {
    && (forall i: nat, id, d :: Paid(y, i, id, d))
    && (forall n :: Spent(y, n))
    && (forall i: nat, id, j: nat, jd, d :: OneUser(y, i, id, j, jd, d))
  }

  ghost predicate SlotOk(p: Slot) {
    KernelOk(p.kernel) && (p.waiting.Some? ==> TicketOk(p.kernel, p.waiting.value))
  }

  ghost predicate SystemOk(cfg: A.Config, y: System) {
    && (forall i :: 0 <= i < |y.slots| ==> SlotOk(y.slots[i]))
    && A.Sound(cfg, y.authority)
    && OneToOne(y)
  }

  /** Nothing that leaves the committed capabilities and the consumption table alone breaks the correspondence. */
  lemma SameUses(y: System, z: System)
    requires OneToOne(y) && y.authority.consumed == z.authority.consumed
    requires forall i: nat, id, d :: Used(z, i, id, d) <==> Used(y, i, id, d)
    ensures OneToOne(z)
  {
    forall i: nat, id, d ensures Paid(z, i, id, d) { assert Paid(y, i, id, d); }
    forall n ensures Spent(z, n) {
      assert Spent(y, n);
      if n in y.authority.consumed {
        var i: nat, id :| Used(y, i, id, y.authority.consumed[n]);
        assert Used(z, i, id, z.authority.consumed[n]);
      }
    }
    forall i: nat, id, j: nat, jd, d ensures OneUser(z, i, id, j, jd, d) { assert OneUser(y, i, id, j, jd, d); }
  }

  lemma AddSlot(cfg: A.Config, y: System, k: Kernel)
    requires SystemOk(cfg, y) && KernelOk(k) && k.authorizations == map[]
    ensures SystemOk(cfg, y.(slots := y.slots + [Slot(k, None)]))
  {
    SameUses(y, y.(slots := y.slots + [Slot(k, None)]));
  }

  lemma ReplaceSlot(cfg: A.Config, y: System, i: nat, p: Slot, s: A.State)
    requires SystemOk(cfg, y) && i < |y.slots| && SlotOk(p) && A.Sound(cfg, s)
    requires p.kernel.authorizations == y.slots[i].kernel.authorizations && s.consumed == y.authority.consumed
    ensures SystemOk(cfg, System(y.slots[i := p], s))
  {
    SameUses(y, System(y.slots[i := p], s));
  }

  /** One new commit pays with a nonce nobody used. */
  lemma NewUse(y: System, z: System, i: nat, id: Id, d: A.AuthDigest)
    requires OneToOne(y) && i < |y.slots| && |z.slots| == |y.slots|
    requires id !in y.slots[i].kernel.authorizations && d.claims.nonce !in y.authority.consumed
    requires z.slots[i].kernel.authorizations == y.slots[i].kernel.authorizations[id := d]
    requires forall j :: 0 <= j < |y.slots| && j != i ==> z.slots[j] == y.slots[j]
    requires z.authority.consumed == y.authority.consumed[d.claims.nonce := d]
    ensures OneToOne(z)
  {
    forall j: nat, jd, e ensures Used(z, j, jd, e) <==> Used(y, j, jd, e) || (j == i && jd == id && e == d) { }
    forall j: nat, jd, e ensures Paid(z, j, jd, e) { assert Paid(y, j, jd, e); }
    forall n ensures Spent(z, n) {
      assert Spent(y, n);
      if n == d.claims.nonce {
        assert Used(z, i, id, d);
      } else if n in y.authority.consumed {
        var j: nat, jd :| Used(y, j, jd, y.authority.consumed[n]);
        assert Used(z, j, jd, z.authority.consumed[n]);
      }
    }
    forall a: nat, ad, b: nat, bd, e ensures OneUser(z, a, ad, b, bd, e) {
      assert OneUser(y, a, ad, b, bd, e) && Paid(y, a, ad, e) && Paid(y, b, bd, e);
    }
  }

  // ---------- Steps ----------

  /** What consuming does to the table of consumed nonces. */
  lemma ConsumeRecords(cfg: A.Config, s: A.State, v: A.Verified, now: int)
    requires v.capability.digest == A.AuthDigest(v.capability.claims)
    ensures var (s', used) := A.Consume(cfg, s, v, now); var n := v.capability.claims.nonce;
            if used.Done? then n !in s.consumed && s'.consumed == s.consumed[n := v.capability.digest]
            else s'.consumed == s.consumed
  {
  }

  /** Either nothing is recorded on either side, or one capability on both. */
  ghost predicate Paired(k: Kernel, s: A.State, k': Kernel, s': A.State, t: Ticket) {
    var d := t.verified.capability.digest;
    || (k'.authorizations == k.authorizations && s'.consumed == s.consumed)
    || (&& d.claims.nonce !in s.consumed
        && k'.authorizations == k.authorizations[t.id := d] && s'.consumed == s.consumed[d.claims.nonce := d])
  }

  lemma FinishPairs(cfg: A.Config, k: Kernel, s: A.State, t: Ticket, later: int)
    requires t.id in k.transactions && t.verified.capability.digest == A.AuthDigest(t.verified.capability.claims)
    ensures var (k', s', _) := CommitFinish(cfg, k, s, t, later); Paired(k, s, k', s', t)
  {
    ConsumeRecords(cfg, s, t.verified, later);
  }

  lemma FinishSound(cfg: A.Config, k: Kernel, s: A.State, t: Ticket, later: int)
    requires t.id in k.transactions && A.Sound(cfg, s)
    ensures var s' := CommitFinish(cfg, k, s, t, later).1; A.Sound(cfg, s') && A.Grows(s, s')
  {
    A.ConsumeKeeps(cfg, s, t.verified, later);
  }

  /** A transaction that waits for its capability has not used one yet. */
  lemma TicketUnused(k: Kernel, t: Ticket)
    requires IndexOk(k) && TicketOk(k, t)
    ensures t.id !in k.authorizations
  {
    PlanFacts(k, t.id, t.verified);
  }

  lemma FinishReplaces(cfg: A.Config, y: System, i: nat, t: Ticket, k': Kernel, s': A.State)
    requires SystemOk(cfg, y) && i < |y.slots| && t.id !in y.slots[i].kernel.authorizations
    requires KernelOk(k') && A.Sound(cfg, s') && Paired(y.slots[i].kernel, y.authority, k', s', t)
    ensures SystemOk(cfg, System(y.slots[i := Slot(k', None)], s'))
  {
    var k, z := y.slots[i].kernel, System(y.slots[i := Slot(k', None)], s');
    if k'.authorizations == k.authorizations && s'.consumed == y.authority.consumed {
      ReplaceSlot(cfg, y, i, Slot(k', None), s');
    } else {
      NewUse(y, z, i, t.id, t.verified.capability.digest);
    }
  }

  lemma FinishCallKeeps(cfg: A.Config, y: System, i: nat, later: int)
    requires SystemOk(cfg, y) && i < |y.slots| && y.slots[i].waiting.Some?
    ensures var (p, s) := FinishAfter(cfg, y.slots[i], y.authority, later); SystemOk(cfg, System(y.slots[i := p], s))
  {
    var k, t := y.slots[i].kernel, y.slots[i].waiting.value;
    assert SlotOk(y.slots[i]);
    FinishKeeps(cfg, k, y.authority, t, later);
    FinishSound(cfg, k, y.authority, t, later);
    FinishPairs(cfg, k, y.authority, t, later);
    TicketUnused(k, t);
    var (k', s', _) := CommitFinish(cfg, k, y.authority, t, later);
    FinishReplaces(cfg, y, i, t, k', s');
  }

  lemma ChecksOnlyObserve(cfg: A.Config, k: Kernel, s: A.State, id: Id, cap: A.Capability, now: int)
    requires k.head in k.revisions
    ensures var s' := CommitChecks(Some(cfg), k, s, id, cap, now).0; s' == s || s' == A.Verify(cfg, s, cap, now).0
  {
  }

  lemma VerifyObserves(cfg: A.Config, s: A.State, cap: A.Capability, now: int)
    requires A.Sound(cfg, s)
    ensures var s' := A.Verify(cfg, s, cap, now).0; A.Sound(cfg, s') && A.Grows(s, s') && s'.consumed == s.consumed
  {
    A.ObserveKeeps(cfg, s, now);
  }

  lemma CheckSound(cfg: A.Config, p: Slot, s: A.State, id: Id, cap: A.Capability, now: int)
    requires p.kernel.head in p.kernel.revisions && A.Sound(cfg, s)
    ensures var s' := CheckAfter(cfg, p, s, id, cap, now).1; A.Sound(cfg, s') && A.Grows(s, s') && s'.consumed == s.consumed
  {
    ChecksOnlyObserve(cfg, p.kernel, s, id, cap, now);
    VerifyObserves(cfg, s, cap, now);
  }

  lemma CheckKeepsSlot(cfg: A.Config, p: Slot, s: A.State, id: Id, cap: A.Capability, now: int)
    requires KernelOk(p.kernel)
    ensures var q := CheckAfter(cfg, p, s, id, cap, now).0; SlotOk(q) && q.kernel == p.kernel
  {
    if CommitChecks(Some(cfg), p.kernel, s, id, cap, now).1.Waiting? {
      ChecksGiveTicket(cfg, p.kernel, s, id, cap, now);
    }
  }

  lemma StageWithAuthorizations(k: Kernel, c: Command, e: Result<Transaction>)
    ensures StageWith(k, c, e).0.authorizations == k.authorizations
  {
  }

  lemma StageAuthorizations(k: Kernel, c: Command)
    ensures Stage(k, c).0.authorizations == k.authorizations
  {
    StageWithAuthorizations(k, c, if c.transactionId in k.transactions then Extend(k.transactions[c.transactionId], c) else Err(UnknownTransaction));
  }

  lemma StageBatchAuthorizations(k: Kernel, batch: seq<Command>)
    ensures StageBatch(k, batch).0.authorizations == k.authorizations
  {
  }

  /** What a kernel call other than a commit keeps. */
  lemma LocalAuthorizations(k: Kernel, call: Call)
    requires k.head in k.revisions
    ensures LocalAfter(k, call).authorizations == k.authorizations
  {
    match call
    case StageCommand(c) => StageAuthorizations(k, c);
    case StageCommands(batch) => StageBatchAuthorizations(k, batch);
    case _ =>
  }

  lemma LocalKeeps(k: Kernel, call: Call)
    requires KernelOk(k)
    ensures KernelOk(LocalAfter(k, call))
  {
    match call
    case BeginTransaction(id, base) => BeginKeeps(k, id, base);
    case StageCommand(c) => StageKeeps(k, c);
    case StageCommands(batch) => StageBatchKeeps(k, batch);
    case RecordVerification(id, report, gate, claimed) => VerifyKeeps(k, id, report, gate, claimed);
    case RollBack(id) => RollbackKeeps(k, id);
    case _ =>
  }

  lemma CheckCallKeeps(cfg: A.Config, y: System, i: nat, id: Id, cap: A.Capability, now: int)
    requires SystemOk(cfg, y) && i < |y.slots| && y.slots[i].kernel.head in y.slots[i].kernel.revisions
    ensures var (q, s) := CheckAfter(cfg, y.slots[i], y.authority, id, cap, now); SystemOk(cfg, System(y.slots[i := q], s))
  {
    assert SlotOk(y.slots[i]);
    CheckSound(cfg, y.slots[i], y.authority, id, cap, now);
    CheckKeepsSlot(cfg, y.slots[i], y.authority, id, cap, now);
    var (q, s) := CheckAfter(cfg, y.slots[i], y.authority, id, cap, now);
    ReplaceSlot(cfg, y, i, q, s);
  }

  lemma LocalCallKeeps(cfg: A.Config, y: System, i: nat, call: Call)
    requires SystemOk(cfg, y) && i < |y.slots| && y.slots[i].kernel.head in y.slots[i].kernel.revisions
    ensures SystemOk(cfg, System(y.slots[i := Slot(LocalAfter(y.slots[i].kernel, call), None)], y.authority))
  {
    assert SlotOk(y.slots[i]);
    LocalAuthorizations(y.slots[i].kernel, call);
    LocalKeeps(y.slots[i].kernel, call);
    ReplaceSlot(cfg, y, i, Slot(LocalAfter(y.slots[i].kernel, call), None), y.authority);
  }

  lemma KernelCallKeeps(cfg: A.Config, y: System, i: nat, call: Call)
    requires SystemOk(cfg, y) && i < |y.slots| && y.slots[i].kernel.head in y.slots[i].kernel.revisions
    ensures SystemOk(cfg, After(cfg, y, OnKernel(i, call)))
  {
    var p := y.slots[i];
    assert y.slots[i := p] == y.slots && System(y.slots, y.authority) == y;
    if call.FinishCommit? {
      if p.waiting.Some? { FinishCallKeeps(cfg, y, i, call.later); }
    } else if p.waiting.None? {
      if call.CheckCommit? {
        CheckCallKeeps(cfg, y, i, call.id, call.capability, call.now);
      } else {
        LocalCallKeeps(cfg, y, i, call);
      }
    }
  }

  lemma NewKernelKeeps(cfg: A.Config, y: System, initial: Graph)
    requires SystemOk(cfg, y)
    ensures SystemOk(cfg, After(cfg, y, NewKernel(initial)))
  {
    if WfGraph(initial) && Start(initial).Ok? {
      StartOk(initial);
      AddSlot(cfg, y, Start(initial).value);
    }
  }

  lemma ForkIsRooted(r: Revision)
    requires StartFrom(r).Ok?
    ensures StartFrom(r).value == Rooted(r) && Rooted(r).authorizations == map[]
  {
  }

  lemma ForkKeeps(cfg: A.Config, y: System, r: Revision)
    requires SystemOk(cfg, y)
    ensures SystemOk(cfg, After(cfg, y, Fork(r)))
  {
    if WfGraph(r.graph) && StartFrom(r).Ok? {
      StartFromOk(r);
      ForkIsRooted(r);
      AddSlot(cfg, y, Rooted(r));
    }
  }

  lemma OnlyConsumeConsumes(cfg: A.Config, s: A.State, call: A.Call, now: int)
    requires !call.DoConsume?
    ensures A.After(cfg, s, call, now).consumed == s.consumed
  {
  }

  lemma ReplaceAuthority(cfg: A.Config, y: System, s: A.State)
    requires SystemOk(cfg, y) && A.Sound(cfg, s) && s.consumed == y.authority.consumed
    ensures SystemOk(cfg, y.(authority := s))
  {
    SameUses(y, y.(authority := s));
  }

  lemma AuthorityCallKeeps(cfg: A.Config, y: System, call: A.Call, now: int)
    requires SystemOk(cfg, y)
    ensures SystemOk(cfg, After(cfg, y, OnAuthority(call, now)))
  {
    if !call.DoConsume? {
      A.CallKeepsSound(cfg, y.authority, call, now);
      OnlyConsumeConsumes(cfg, y.authority, call, now);
      ReplaceAuthority(cfg, y, A.After(cfg, y.authority, call, now));
    }
  }

  lemma ActKeeps(cfg: A.Config, y: System, act: Act)
    requires SystemOk(cfg, y)
    ensures SystemOk(cfg, After(cfg, y, act))
  {
    match act
    case NewKernel(initial) => NewKernelKeeps(cfg, y, initial);
    case Fork(r) => ForkKeeps(cfg, y, r);
    case OnKernel(i, call) =>
      if i < |y.slots| && y.slots[i].kernel.head in y.slots[i].kernel.revisions { KernelCallKeeps(cfg, y, i, call); }
    case OnAuthority(call, now) => AuthorityCallKeeps(cfg, y, call, now);
  }

  lemma {:induction false} RunKeeps(cfg: A.Config, y: System, acts: seq<Act>)
    requires SystemOk(cfg, y)
    ensures SystemOk(cfg, AfterAll(cfg, y, acts))
    decreases |acts|
  {
    if acts != [] {
      ActKeeps(cfg, y, acts[0]);
      RunKeeps(cfg, After(cfg, y, acts[0]), acts[1..]);
    }
  }

  /** Every reachable system: every kernel meets its invariant, and nonces pay for commits one to one. */
  lemma EveryRunIsOk(cfg: A.Config, acts: seq<Act>)
    ensures SystemOk(cfg, AfterAll(cfg, EMPTY, acts))
  {
    A.InitialSound(cfg);
    RunKeeps(cfg, EMPTY, acts);
  }

  /** Committed transactions are exactly those that hold a consumed capability of their own. */
  lemma CommittedIffPaid(cfg: A.Config, acts: seq<Act>, i: nat, id: Id)
    requires var y := AfterAll(cfg, EMPTY, acts); i < |y.slots| && id in y.slots[i].kernel.transactions
    ensures var y := AfterAll(cfg, EMPTY, acts); var k := y.slots[i].kernel;
            k.transactions[id].state == Committed <==>
              && id in k.authorizations
              && k.authorizations[id].claims.transactionId == id
              && k.authorizations[id].claims.nonce in y.authority.consumed
              && y.authority.consumed[k.authorizations[id].claims.nonce] == k.authorizations[id]
  {
    EveryRunIsOk(cfg, acts);
    var y := AfterAll(cfg, EMPTY, acts);
    var k := y.slots[i].kernel;
    assert SlotOk(y.slots[i]) && TransactionOk(k, id);
    if id in k.authorizations {
      assert Used(y, i, id, k.authorizations[id]);
      assert Paid(y, i, id, k.authorizations[id]);
    }
  }

  /**
   In every reachable system a committed transaction was paid for by a capability whose claims are
   its own project, base, head, commands, graph, preview and verified preview, and exactly the report and
   release subject that were recorded for it; its revision records the same.
   */
  lemma CommitIsCovered(cfg: A.Config, acts: seq<Act>, i: nat, id: Id)
    requires var y := AfterAll(cfg, EMPTY, acts);
             i < |y.slots| && id in y.slots[i].kernel.transactions && y.slots[i].kernel.transactions[id].state == Committed
    ensures var k := AfterAll(cfg, EMPTY, acts).slots[i].kernel; var t := k.transactions[id];
            && id in k.authorizations && t.revision.Some? && t.revision.value in k.revisions && t.report.Some?
            && var c, r := k.authorizations[id].claims, k.revisions[t.revision.value];
               && c.transactionId == id && c.projectId == t.staged.projectId
               && c.base == t.base && c.head == t.base && r.parent == Some(t.base)
               && c.commands == HashesOf(t.commands) && r.commands == c.commands
               && c.preview == t.preview && c.verifiedPreview == t.preview && r.preview == Some(t.preview)
               && t.report == Some(c.report) && r.report == t.report
               && c.subject == ReleaseHash(t.base, t.preview, t.report.value)
               && c.graph == HashOf(r.graph) && r.graph == t.staged
               && r.hash == RevisionHash(t.base, r.sequence, c.graph, c.commands, c.report, c.preview)
  {
    EveryRunIsOk(cfg, acts);
    var k := AfterAll(cfg, EMPTY, acts).slots[i].kernel;
    assert SlotOk(AfterAll(cfg, EMPTY, acts).slots[i]);
    CoveredFacts(k, id);
  }

  lemma CoveredFacts(k: Kernel, id: Id)
    requires KernelOk(k) && id in k.transactions && k.transactions[id].state == Committed
    ensures var t := k.transactions[id];
            && Recorded(k, t) && t.id == id && k.revisions[t.revision.value].graphHash == HashOf(t.staged)
  {
    assert TransactionOk(k, id);
    assert RevisionOk(k, k.transactions[id].revision.value);
  }

  /** Every consumed nonce belongs to exactly one committed transaction of exactly one kernel. */
  lemma NonceHasOneCommit(cfg: A.Config, acts: seq<Act>, n: Id) returns (i: nat, id: Id)
    requires n in AfterAll(cfg, EMPTY, acts).authority.consumed
    ensures var y := AfterAll(cfg, EMPTY, acts);
            && Used(y, i, id, y.authority.consumed[n])
            && id in y.slots[i].kernel.transactions && y.slots[i].kernel.transactions[id].state == Committed
            && forall j: nat, jd :: Used(y, j, jd, y.authority.consumed[n]) ==> j == i && jd == id
  {
    EveryRunIsOk(cfg, acts);
    var y := AfterAll(cfg, EMPTY, acts);
    assert Spent(y, n);
    i, id :| Used(y, i, id, y.authority.consumed[n]);
    assert SlotOk(y.slots[i]);
    forall j: nat, jd | Used(y, j, jd, y.authority.consumed[n]) ensures j == i && jd == id {
      assert OneUser(y, i, id, j, jd, y.authority.consumed[n]);
    }
  }

  // ---------- A race for one capability ----------

  lemma FinishGrows(cfg: A.Config, p: Slot, s: A.State, later: int)
    requires A.Sound(cfg, s)
    ensures var s' := FinishAfter(cfg, p, s, later).1; A.Sound(cfg, s') && A.Grows(s, s')
  {
    if p.waiting.Some? && p.waiting.value.id in p.kernel.transactions { FinishSound(cfg, p.kernel, s, p.waiting.value, later); }
  }

  /** Which half of a commit, if any, a call runs on the authority. */
  lemma SlotAuthority(cfg: A.Config, p: Slot, s: A.State, call: Call)
    requires p.kernel.head in p.kernel.revisions
    ensures SlotAfter(cfg, p, s, call).1 ==
      if call.FinishCommit? then FinishAfter(cfg, p, s, call.later).1
      else if call.CheckCommit? && p.waiting.None? then CheckAfter(cfg, p, s, call.id, call.capability, call.now).1
      else s
  {
  }

  lemma SlotGrows(cfg: A.Config, p: Slot, s: A.State, call: Call)
    requires p.kernel.head in p.kernel.revisions && A.Sound(cfg, s)
    ensures A.Grows(s, SlotAfter(cfg, p, s, call).1)
  {
    SlotAuthority(cfg, p, s, call);
    if call.FinishCommit? { FinishGrows(cfg, p, s, call.later); }
    if call.CheckCommit? { CheckSound(cfg, p, s, call.id, call.capability, call.now); }
  }

  /** An act changes at most the slot it is on. */
  lemma ActSlots(cfg: A.Config, y: System, act: Act, i: nat)
    requires i < |y.slots| && y.slots[i].kernel.head in y.slots[i].kernel.revisions
    ensures |y.slots| <= |After(cfg, y, act).slots|
    ensures After(cfg, y, act).slots[i] ==
      if act.OnKernel? && act.i == i then SlotAfter(cfg, y.slots[i], y.authority, act.call).0 else y.slots[i]
  {
  }

  lemma ActGrows(cfg: A.Config, y: System, act: Act)
    requires SystemOk(cfg, y)
    ensures A.Grows(y.authority, After(cfg, y, act).authority)
  {
    match act
    case OnKernel(i, call) => if i < |y.slots| && y.slots[i].kernel.head in y.slots[i].kernel.revisions { SlotGrows(cfg, y.slots[i], y.authority, call); }
    case OnAuthority(call, now) => A.CallKeepsSound(cfg, y.authority, call, now);
    case _ =>
  }

  lemma {:induction false} RunGrows(cfg: A.Config, y: System, acts: seq<Act>)
    requires SystemOk(cfg, y)
    ensures A.Grows(y.authority, AfterAll(cfg, y, acts).authority)
    decreases |acts|
  {
    if acts != [] {
      var z := After(cfg, y, acts[0]);
      ActKeeps(cfg, y, acts[0]);
      ActGrows(cfg, y, acts[0]);
      RunGrows(cfg, z, acts[1..]);
      A.GrowsTransitive(y.authority, z.authority, AfterAll(cfg, y, acts).authority);
    }
  }

  lemma RefusedFinish(cfg: A.Config, k: Kernel, s: A.State, t: Ticket, later: int)
    requires t.id in k.transactions && A.Consume(cfg, s, t.verified, later).1.Refused?
    ensures CommitFinish(cfg, k, s, t, later).0 == k && CommitFinish(cfg, k, s, t, later).2.Err?
  {
  }

  lemma PublishedConsumes(cfg: A.Config, k: Kernel, s: A.State, t: Ticket, later: int)
    requires t.id in k.transactions && CommitFinish(cfg, k, s, t, later).2.Ok?
    ensures t.verified.capability.claims.nonce in CommitFinish(cfg, k, s, t, later).1.consumed
  {
  }

  lemma FinishAct(cfg: A.Config, y: System, i: nat, later: int)
    requires i < |y.slots| && y.slots[i].waiting.Some? && y.slots[i].waiting.value.id in y.slots[i].kernel.transactions
    requires y.slots[i].kernel.head in y.slots[i].kernel.revisions
    ensures After(cfg, y, OnKernel(i, FinishCommit(later))).authority ==
            CommitFinish(cfg, y.slots[i].kernel, y.authority, y.slots[i].waiting.value, later).1
  {
  }

  /**
   Two kernels hold verified commits for capabilities with one nonce.  Once the first publishes,
   the second, whenever it comes to consume, is refused and changes nothing in its kernel.
   */
  lemma RaceHasOneWinner(cfg: A.Config, y: System, i: nat, first: int, acts: seq<Act>, k: Kernel, t: Ticket, second: int)
    requires SystemOk(cfg, y) && i < |y.slots| && y.slots[i].waiting.Some?
    requires y.slots[i].waiting.value.id in y.slots[i].kernel.transactions && t.id in k.transactions
    requires t.verified.capability.claims.nonce == y.slots[i].waiting.value.verified.capability.claims.nonce
    requires CommitFinish(cfg, y.slots[i].kernel, y.authority, y.slots[i].waiting.value, first).2.Ok?
    ensures var z := AfterAll(cfg, After(cfg, y, OnKernel(i, FinishCommit(first))), acts);
            CommitFinish(cfg, k, z.authority, t, second).2.Err? && CommitFinish(cfg, k, z.authority, t, second).0 == k
  {
    var z := After(cfg, y, OnKernel(i, FinishCommit(first)));
    assert SlotOk(y.slots[i]);
    FinishAct(cfg, y, i, first);
    PublishedConsumes(cfg, y.slots[i].kernel, y.authority, y.slots[i].waiting.value, first);
    ActKeeps(cfg, y, OnKernel(i, FinishCommit(first)));
    RunGrows(cfg, z, acts);
    A.ConsumeRefusesUsed(cfg, AfterAll(cfg, z, acts).authority, t.verified, second);
    RefusedFinish(cfg, k, AfterAll(cfg, z, acts).authority, t, second);
  }

  // ---------- What the acts do ----------

  /** A kernel whose lock is free takes a local call as it comes; nothing else in the system changes. */
  lemma LocalAct(cfg: A.Config, y: System, i: nat, call: Call)
    requires i < |y.slots| && y.slots[i].waiting.None? && y.slots[i].kernel.head in y.slots[i].kernel.revisions
    requires !call.CheckCommit? && !call.FinishCommit?
    ensures var k := y.slots[i].kernel;
            var k' := match call
              case BeginTransaction(id, base) => Begin(k, id, base).0
              case StageCommand(c) => Stage(k, c).0
              case StageCommands(batch) => StageBatch(k, batch).0
              case RecordVerification(id, report, gate, claimed) => Verify(k, id, report, gate, claimed).0
              case RollBack(id) => Rollback(k, id).0
              case _ => k;
            After(cfg, y, OnKernel(i, call)) == System(y.slots[i := Slot(k', None)], y.authority)
  {
  }

  /** While a commit waits between its halves, every call on its kernel but the second half changes nothing. */
  lemma LockedAct(cfg: A.Config, y: System, i: nat, call: Call)
    requires i < |y.slots| && y.slots[i].waiting.Some? && !call.FinishCommit?
    ensures After(cfg, y, OnKernel(i, call)) == y
  {
    assert y.slots[i := y.slots[i]] == y.slots;
  }

  /** New kernels join at the end; the authority serves everyone's calls but `consume`, which only commits make. */
  lemma SharedActs(cfg: A.Config, y: System, initial: Graph, r: Revision, call: A.Call, now: int)
    ensures WfGraph(initial) && Start(initial).Ok? ==>
      After(cfg, y, NewKernel(initial)) == System(y.slots + [Slot(Start(initial).value, None)], y.authority)
    ensures WfGraph(r.graph) && StartFrom(r).Ok? ==> After(cfg, y, Fork(r)) == System(y.slots + [Slot(StartFrom(r).value, None)], y.authority)
    ensures !call.DoConsume? ==> After(cfg, y, OnAuthority(call, now)) == System(y.slots, A.After(cfg, y.authority, call, now))
    ensures call.DoConsume? ==> After(cfg, y, OnAuthority(call, now)) == y
  {
  }
}
