/**
 The kernel as the object it is in backend/design_kernel/engine.py:217-719: its methods update
 the indexes and the chain in place, and each is proved to do exactly what the value function
 of the same operation says, while keeping the invariant of every reachable kernel.
 */
module KernelObject {
  import opened Graph
  import opened Commands
  import opened Normalization
  import opened Digests
  import opened Kernel
  import opened KernelRuns
  import Validation
  import A = Authority

  /** Local replay of one accepted command. */
  method ExtendBy(t: Transaction, c: Command) returns (r: Result<Transaction>)
    requires WfGraph(t.staged)
    ensures r == Extend(t, c)
    ensures r.Ok? ==> WfGraph(r.value.staged)
  {
    var next := RunStep(t.staged, c.op);
    match next
    case Err(f) => r := Err(f);
    case Ok(g) =>
      StepSettles(t.staged, c.op);
      r := if g == t.staged then Err(CommandConflict) else Ok(WithCommand(t, g, c));
  }

  lemma StagedWf(k: Kernel, id: Id)
    requires KernelOk(k)
    ensures id in k.transactions ==> WfGraph(k.transactions[id].staged)
  {
    assert TransactionOk(k, id);
  }

  lemma {:induction false} BatchStep(k: Kernel, b: Batch, batch: seq<Command>, i: nat)
    requires i < |batch|
    ensures BatchFrom(k, b, batch[i..]) ==
            match Round(k, b, batch[i], Extend(b.transaction, batch[i]))
            case Err(f) => Err(f)
            case Ok(b') => BatchFrom(k, b', batch[i + 1..])
  {
    assert batch[i..][1..] == batch[i + 1..];
  }

  /** The checks `stage_batch` makes on the batch alone. */
  method CheckBatch(batch: seq<Command>) returns (ok: bool)
    ensures ok == WellShaped(batch)
  {
    if batch == [] {
      return false;
    }
    var i := 0;
    var ids: set<Id>, keys: set<Id> := {}, {};
    while i < |batch|
      invariant 0 <= i <= |batch|
      invariant forall j :: 0 <= j < i ==> batch[j].transactionId == batch[0].transactionId && batch[j].base == batch[0].base
      invariant forall x :: x in ids <==> exists j :: 0 <= j < i && batch[j].id == x
      invariant forall x :: x in keys <==> exists j :: 0 <= j < i && batch[j].key == x
      invariant forall j, l :: 0 <= j < l < i ==> batch[j].id != batch[l].id && batch[j].key != batch[l].key
    {
      var c := batch[i];
      if c.transactionId != batch[0].transactionId || c.base != batch[0].base || c.id in ids || c.key in keys {
        return false;
      }
      ids, keys := ids + {c.id}, keys + {c.key};
      i := i + 1;
    }
    return true;
  }

  class DesignKernel {
    const verifier: A.CommitAuthority?
    var revisions: map<Digest, Revision>
    var head: Digest
    var transactions: map<Id, Transaction>
    var idempotency: map<(Id, Id), Digest>
    var commandIds: map<Id, Digest>
    var authorizations: map<Id, A.AuthDigest>
    var evidence: map<Id, A.Consumption>

    function View(): Kernel
      reads this
    {
      Kernel(revisions, head, transactions, idempotency, commandIds, authorizations, evidence)
    }

    ghost predicate Consistent()
      reads this
    {
      KernelOk(View())
    }

    constructor (verifier: A.CommitAuthority?, root: Revision)
      requires Settled(root.graph) && root.graphHash == HashOf(root.graph)
      ensures this.verifier == verifier && View() == Rooted(root) && Consistent()
    {
      this.verifier := verifier;
      revisions, head := map[root.hash := root], root.hash;
      transactions, idempotency, commandIds, authorizations, evidence := map[], map[], map[], map[], map[];
      RootedOk(root);
    }

    static method Create(initial: Graph, verifier: A.CommitAuthority?) returns (r: Result<DesignKernel>)
      requires WfGraph(initial)
      ensures match Start(initial)
              case Err(f) => r == Err(f)
              case Ok(k) => r.Ok? && fresh(r.value) && r.value.View() == k && r.value.Consistent() && r.value.verifier == verifier
    {
      var g := Normalize(initial);
      NormalizeKeepsWf(initial);
      var valid := Validation.ValidateGraph(g);
      if !valid {
        return Err(InvariantViolation);
      }
      NormalizeKeepsValidity(initial);
      ValidNormalizeTwice(initial);
      var k := new DesignKernel(verifier, Revision(GenesisHash(HashOf(g)), None, 0, g, HashOf(g), [], None, None));
      return Ok(k);
    }

    static method FromRevision(root: Revision, verifier: A.CommitAuthority?) returns (r: Result<DesignKernel>)
      requires WfGraph(root.graph)
      ensures match StartFrom(root)
              case Err(f) => r == Err(f)
              case Ok(k) => r.Ok? && fresh(r.value) && r.value.View() == k && r.value.Consistent() && r.value.verifier == verifier
    {
      var g := Normalize(root.graph);
      NormalizeKeepsWf(root.graph);
      var valid := Validation.ValidateGraph(g);
      if !valid || g != root.graph || HashOf(root.graph) != root.graphHash {
        return Err(InvariantViolation);
      }
      var k := new DesignKernel(verifier, root);
      return Ok(k);
    }

    method BeginTransaction(id: Id, base: Digest) returns (r: Result<Transaction>)
      requires Consistent()
      modifies this
      ensures (View(), r) == Begin(old(View()), id, base) && Consistent()
    {
      BeginKeeps(View(), id, base);
      r := BeginUnchecked(id, base);
    }

    method BeginUnchecked(id: Id, base: Digest) returns (r: Result<Transaction>)
      requires head in revisions
      modifies this
      ensures (View(), r) == Begin(old(View()), id, base)
    {
      if id in transactions {
        var t := transactions[id];
        return if t.base != base then Err(CommandConflict) else Ok(t);
      }
      if base != head {
        return Err(StaleRevision);
      }
      var t := Refresh(Transaction(id, base, revisions[head].graph, [], Open, None, false, External(""), None, None));
      transactions := transactions[id := t];
      return Ok(t);
    }

    method StageOne(c: Command) returns (r: Result<Transaction>)
      requires Consistent()
      modifies this
      ensures (View(), r) == Stage(old(View()), c) && Consistent()
    {
      StageKeeps(View(), c);
      StagedWf(View(), c.transactionId);
      r := StageUnchecked(c);
    }

    /** The checks of a stage call: its answer if they decide it already. */
    method StageGate(c: Command) returns (answer: Option<Result<Transaction>>)
      ensures answer.Some? ==> forall e :: StageWith(View(), c, e) == (View(), answer.value)
      ensures answer.None? ==> c.transactionId in transactions
      ensures answer.None? ==> forall e ::
        StageWith(View(), c, e) == match e { case Err(f) => (View(), Err(f)) case Ok(t) => (Publish(View(), t, c), Ok(t)) }
    {
      if c.transactionId !in transactions {
        return Some(Err(UnknownTransaction));
      }
      var t, key := transactions[c.transactionId], (c.transactionId, c.key);
      if c.base != t.base {
        return Some(Err(StaleRevision));
      }
      if key in idempotency {
        return Some(if idempotency[key] != CommandHash(c) then Err(CommandConflict) else Ok(t));
      }
      if c.id in commandIds {
        return Some(Err(CommandConflict));
      }
      if t.state != Open {
        return Some(Err(NotCommittable));
      }
      return None;
    }

    method PublishCommand(t: Transaction, c: Command)
      modifies this
      ensures View() == Publish(old(View()), t, c)
    {
      transactions := transactions[c.transactionId := t];
      idempotency := idempotency[(c.transactionId, c.key) := CommandHash(c)];
      commandIds := commandIds[c.id := CommandHash(c)];
    }

    method StageUnchecked(c: Command) returns (r: Result<Transaction>)
      requires c.transactionId in transactions ==> WfGraph(transactions[c.transactionId].staged)
      modifies this
      ensures (View(), r) == Stage(old(View()), c)
    {
      var answer := StageGate(c);
      if answer.Some? {
        return answer.value;
      }
      r := ExtendBy(transactions[c.transactionId], c);
      if r.Ok? {
        PublishCommand(r.value, c);
      }
    }

    /** One round of the batch loop, against the published indexes. */
    method ReplayOne(b: Batch, c: Command) returns (r: Result<Batch>)
      requires WfGraph(b.transaction.staged)
      ensures r == Round(View(), b, c, Extend(b.transaction, c))
      ensures r.Ok? ==> WfGraph(r.value.transaction.staged)
    {
      var key := (c.transactionId, c.key);
      if key in idempotency {
        return if idempotency[key] != CommandHash(c) then Err(CommandConflict) else Ok(b);
      }
      if c.id in commandIds {
        return Err(CommandConflict);
      }
      if b.transaction.state != Open {
        return Err(NotCommittable);
      }
      var next := ExtendBy(b.transaction, c);
      match next
      case Err(f) => return Err(f);
      case Ok(t) => return Ok(Batch(t, b.keys[key := CommandHash(c)], b.ids[c.id := CommandHash(c)]));
    }

    /** Replays the whole batch on local values before anything is published. */
    method ReplayBatch(t: Transaction, batch: seq<Command>) returns (r: Result<Batch>)
      requires WfGraph(t.staged)
      ensures r == BatchFrom(View(), Batch(t, map[], map[]), batch)
    {
      var b, i := Batch(t, map[], map[]), 0;
      ghost var k := View();
      ghost var whole := BatchFrom(k, b, batch);
      assert batch[0..] == batch;
      while i < |batch|
        invariant 0 <= i <= |batch| && WfGraph(b.transaction.staged)
        invariant whole == BatchFrom(k, b, batch[i..])
      {
        BatchStep(k, b, batch, i);
        var next := ReplayOne(b, batch[i]);
        match next {
          case Err(f) => return Err(f);
          case Ok(b') => b := b';
        }
        i := i + 1;
      }
      return Ok(b);
    }

    method StageAll(batch: seq<Command>) returns (r: Result<Transaction>)
      requires Consistent()
      modifies this
      ensures (View(), r) == StageBatch(old(View()), batch) && Consistent()
    {
      StageBatchKeeps(View(), batch);
      if batch != [] {
        StagedWf(View(), batch[0].transactionId);
      }
      r := StageAllUnchecked(batch);
    }

    method PublishBatch(id: Id, b: Batch)
      modifies this
      ensures View() == Merged(old(View()), id, b)
    {
      if b.keys != map[] {
        transactions := transactions[id := b.transaction];
        idempotency := idempotency + b.keys;
        commandIds := commandIds + b.ids;
      }
    }

    /** The checks of a batch call: its answer if they decide it already. */
    method BatchGate(batch: seq<Command>) returns (answer: Option<Result<Transaction>>)
      ensures answer.Some? ==> forall e :: StageBatchWith(View(), batch, e) == (View(), answer.value)
      ensures answer.None? ==> batch != [] && batch[0].transactionId in transactions
      ensures answer.None? ==> forall e ::
        StageBatchWith(View(), batch, e) ==
        match e { case Err(f) => (View(), Err(f)) case Ok(b) => (Merged(View(), batch[0].transactionId, b), Ok(b.transaction)) }
    {
      var shaped := CheckBatch(batch);
      if !shaped {
        return Some(Err(InvariantViolation));
      }
      if batch[0].transactionId !in transactions {
        return Some(Err(UnknownTransaction));
      }
      if batch[0].base != transactions[batch[0].transactionId].base {
        return Some(Err(StaleRevision));
      }
      return None;
    }

    method StageAllUnchecked(batch: seq<Command>) returns (r: Result<Transaction>)
      requires batch != [] && batch[0].transactionId in transactions ==> WfGraph(transactions[batch[0].transactionId].staged)
      modifies this
      ensures (View(), r) == StageBatch(old(View()), batch)
    {
      var answer := BatchGate(batch);
      if answer.Some? {
        return answer.value;
      }
      var id := batch[0].transactionId;
      var replayed := ReplayBatch(transactions[id], batch);
      match replayed
      case Err(f) => return Err(f);
      case Ok(b) =>
        PublishBatch(id, b);
        return Ok(b.transaction);
    }

    method RecordVerification(id: Id, report: Digest, gate: bool, claimed: Option<Digest>) returns (r: Result<Transaction>)
      requires Consistent()
      modifies this
      ensures (View(), r) == Verify(old(View()), id, report, gate, claimed) && Consistent()
    {
      VerifyKeeps(View(), id, report, gate, claimed);
      r := RecordUnchecked(id, report, gate, claimed);
    }

    method RecordUnchecked(id: Id, report: Digest, gate: bool, claimed: Option<Digest>) returns (r: Result<Transaction>)
      modifies this
      ensures (View(), r) == Verify(old(View()), id, report, gate, claimed)
    {
      if id !in transactions {
        return Err(UnknownTransaction);
      }
      var t := transactions[id];
      var subject := if claimed.Some? then claimed.value else t.preview;
      if subject != t.preview {
        return Err(ApprovalMismatch);
      }
      if t.state == Verified {
        return if t.report == Some(report) && t.gatePassed == gate && t.verifiedPreview == Some(subject) then Ok(t)
               else Err(CommandConflict);
      }
      if t.state != Open {
        return Err(NotCommittable);
      }
      t := t.(state := if gate then Verified else Open, report := Some(report), gatePassed := gate, verifiedPreview := Some(subject));
      transactions := transactions[id := t];
      return Ok(t);
    }

    method RollBack(id: Id) returns (r: Result<Transaction>)
      requires Consistent()
      modifies this
      ensures (View(), r) == Rollback(old(View()), id) && Consistent()
    {
      RollbackKeeps(View(), id);
      if id !in transactions {
        return Err(UnknownTransaction);
      }
      var t := transactions[id];
      if t.state == Committed {
        return Err(NotCommittable);
      }
      if t.state != RolledBack {
        t := t.(state := RolledBack, report := None, verifiedPreview := None, gatePassed := false);
        transactions := transactions[id := t];
      }
      return Ok(t);
    }

    ghost function Config(): Option<A.Config> {
      if verifier == null then None else Some(verifier.cfg)
    }

    ghost function AuthorityView(): A.State
      reads verifier
    {
      if verifier == null then A.INITIAL else verifier.View()
    }

    method PublishRevision(id: Id, revision: Revision, v: A.Verified, used: A.Consumption)
      requires id in transactions
      modifies this
      ensures View() == Commit'(old(View()), id, revision, v, used)
    {
      revisions := revisions[revision.hash := revision];
      head := revision.hash;
      authorizations := authorizations[id := v.capability.digest];
      evidence := evidence[id := used];
      transactions := transactions[id := transactions[id].(state := Committed, revision := Some(revision.hash))];
    }

    /** First half of a commit: the authority verifies and the kernel checks; nothing of the kernel changes. */
    method CheckCommit(id: Id, cap: A.Capability, now: int) returns (half: Half)
      requires head in revisions
      modifies verifier
      ensures (AuthorityView(), half) == CommitChecks(Config(), View(), old(AuthorityView()), id, cap, now)
    {
      if id !in transactions {
        return Answered(Err(UnknownTransaction));
      }
      if verifier == null {
        return Answered(Err(ApprovalMismatch));
      }
      var verified := verifier.VerifyCapability(cap, now);
      if verified.Refused? {
        return Answered(Err(Unauthorized));
      }
      var plan := PlanCommit(View(), id, verified.value);
      match plan
      case Refuse(f) => return Answered(Err(f));
      case Retry(done) => return Answered(Ok(done));
      case Publishing(revision) => return Waiting(Ticket(id, verified.value, revision));
    }

    /** Second half: the capability is consumed in whatever state the authority then is, before anything is published. */
    method FinishCommit(t: Ticket, later: int) returns (r: Result<Revision>)
      requires t.id in transactions && verifier != null
      modifies this, verifier
      ensures (View(), AuthorityView(), r) == CommitFinish(verifier.cfg, old(View()), old(AuthorityView()), t, later)
    {
      var used := verifier.ConsumeCapability(t.verified, later);
      if used.Refused? {
        return Err(if used.fault == A.AlreadyConsumed then Replayed else Unauthorized);
      }
      PublishRevision(t.id, t.revision, t.verified, used.value);
      return Ok(t.revision);
    }

    /** Both halves under the kernel's lock; `between` are the calls others make on the authority meanwhile. */
    method CommitTransaction(id: Id, cap: A.Capability, now: int, between: seq<(A.Call, int)>, later: int) returns (r: Result<Revision>)
      requires Consistent()
      modifies this, verifier
      ensures (View(), AuthorityView(), r) == Commit(Config(), old(View()), old(AuthorityView()), id, cap, now, between, later)
      ensures Consistent()
    {
      CommitKeeps(Config(), View(), AuthorityView(), id, cap, now, between, later);
      r := CommitUnchecked(id, cap, now, between, later);
    }

    method CommitUnchecked(id: Id, cap: A.Capability, now: int, between: seq<(A.Call, int)>, later: int) returns (r: Result<Revision>)
      requires head in revisions
      modifies this, verifier
      ensures (View(), AuthorityView(), r) == Commit(Config(), old(View()), old(AuthorityView()), id, cap, now, between, later)
    {
      var half := CheckCommit(id, cap, now);
      match half
      case Answered(answer) => return answer;
      case Waiting(t) =>
        verifier.ServeAll(between);
        r := FinishCommit(t, later);
    }
  }
}
