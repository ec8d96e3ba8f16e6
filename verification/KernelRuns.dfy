/**
 What every reachable kernel satisfies: each transaction's staged graph is the fold of its
 commands from its base revision, its preview digest matches, a verified transaction's evidence
 binds that preview, and the revisions form one chain that each commit extends at its head.
 */
module KernelRuns {
  import opened Graph
  import opened Commands
  import opened Normalization
  import opened Fold
  import opened Digests
  import opened Kernel
  import A = Authority

  ghost function CommandEffect(g: Graph, c: Command): Option<Graph> { Effect(g, c.op) }

  // ---------- The invariant ----------

  /** How many commits a revision digest records. */
  function Depth(d: Digest): nat {
    match d
    case RevisionHash(parent, _, _, _, _, _) => Depth(parent) + 1
    case _ => 0
  }

  ghost predicate RevisionOk(k: Kernel, h: Digest) {
    h in k.revisions ==> k.revisions[h].hash == h && Settled(k.revisions[h].graph) && k.revisions[h].graphHash == HashOf(k.revisions[h].graph)
  }

  /** `b` was committed on top of `a`. */
  ghost predicate Follows(k: Kernel, a: Digest, b: Digest) {
    && a in k.revisions && b in k.revisions
    && k.revisions[b].parent == Some(a)
    && k.revisions[b].sequence == k.revisions[a].sequence + 1
    && Depth(b) == Depth(a) + 1
  }

  ghost predicate Chained(k: Kernel, chain: seq<Digest>) {
    && chain != [] && chain[|chain| - 1] == k.head
    && (forall h :: h in k.revisions <==> h in chain)
    && (forall i :: 0 < i < |chain| ==> Follows(k, chain[i - 1], chain[i]))
  }

  ghost predicate Linear(k: Kernel) { exists chain :: Chained(k, chain) }

  ghost predicate Folds(k: Kernel, t: Transaction) {
    t.base in k.revisions && Run(CommandEffect, k.revisions[t.base].graph, t.commands) == Some(t.staged)
  }

  ghost predicate CommandsOk(t: Transaction) {
    && (forall c :: c in t.commands ==> c.transactionId == t.id && c.base == t.base)
    && (forall i, j :: 0 <= i < j < |t.commands| ==> t.commands[i].id != t.commands[j].id && t.commands[i].key != t.commands[j].key)
  }

  /** What the capability of a commit says about the transaction it paid for. */
  ghost predicate CoveredBy(t: Transaction, c: A.Claims) {
    && c.transactionId == t.id && c.projectId == t.staged.projectId
    && c.base == t.base && c.head == t.base
    && c.commands == HashesOf(t.commands) && c.graph == HashOf(t.staged)
    && c.preview == t.preview && c.verifiedPreview == t.preview && t.verifiedPreview == Some(t.preview)
    && t.report == Some(c.report) && c.subject == ReleaseHash(t.base, t.preview, c.report) && c.gatePassed
  }

  /** The committed revision records exactly this transaction, and the capability used covers it. */
  ghost predicate Recorded(k: Kernel, t: Transaction) {
    && t.revision.Some? && t.revision.value in k.revisions && t.commands != []
    && t.id in k.authorizations && CoveredBy(t, k.authorizations[t.id].claims)
    && var r := k.revisions[t.revision.value];
       && r.parent == Some(t.base) && r.graph == t.staged && r.commands == HashesOf(t.commands)
       && r.report == t.report && r.preview == Some(t.preview)
       && t.report.Some? && r.hash == RevisionHash(t.base, r.sequence, r.graphHash, r.commands, t.report.value, t.preview)
  }

  ghost predicate EvidenceOk(k: Kernel, t: Transaction) {
    match t.state
    case Open => !t.gatePassed && t.revision.None?
    case Verified => t.gatePassed && t.report.Some? && t.verifiedPreview == Some(t.preview) && t.revision.None?
    case RolledBack => !t.gatePassed && t.revision.None?
    case Committed => t.gatePassed && Recorded(k, t)
  }

  ghost predicate TransactionOk(k: Kernel, id: Id) {
    id in k.transactions ==>
      var t := k.transactions[id];
      && t.id == id && Settled(t.staged) && Folds(k, t) && t.preview == PreviewOf(t)
      && CommandsOk(t) && EvidenceOk(k, t)
  }

  /** Every accepted command is in both indexes. */
  ghost predicate Indexed(txs: map<Id, Transaction>, keys: map<(Id, Id), Digest>, ids: map<Id, Digest>, id: Id, c: Command) {
    id in txs && c in txs[id].commands ==>
      && (id, c.key) in keys && keys[(id, c.key)] == CommandHash(c)
      && c.id in ids && ids[c.id] == CommandHash(c)
  }

  /** Every idempotency entry belongs to an accepted command of its transaction. */
  ghost predicate KeyOwned(txs: map<Id, Transaction>, keys: map<(Id, Id), Digest>, e: (Id, Id)) {
    e in keys ==>
      && e.0 in txs && keys[e].CommandHash?
      && keys[e].command in txs[e.0].commands && keys[e].command.key == e.1
  }

  /** Every command ID entry belongs to an accepted command. */
  ghost predicate IdOwned(txs: map<Id, Transaction>, ids: map<Id, Digest>, x: Id) {
    x in ids ==>
      && ids[x].CommandHash? && ids[x].command.id == x
      && ids[x].command.transactionId in txs
      && ids[x].command in txs[ids[x].command.transactionId].commands
  }

  ghost predicate IndexOk(k: Kernel) {
    && (forall id, c :: Indexed(k.transactions, k.idempotency, k.commandIds, id, c))
    && (forall e :: KeyOwned(k.transactions, k.idempotency, e))
    && (forall x :: IdOwned(k.transactions, k.commandIds, x))
    && (forall id :: id in k.authorizations ==> id in k.transactions && k.transactions[id].state == Committed)
  }

  ghost predicate KernelOk(k: Kernel) {
    && k.head in k.revisions && Linear(k)
    && (forall h :: RevisionOk(k, h))
    && (forall id :: TransactionOk(k, id))
    && IndexOk(k)
  }

  // ---------- Starting ----------

  lemma RootedChain(r: Revision)
    ensures Linear(Rooted(r))
  {
    assert Chained(Rooted(r), [r.hash]);
  }

  lemma RootedIndex(r: Revision)
    ensures IndexOk(Rooted(r))
  {
  }

  lemma RootedRevision(r: Revision)
    requires Settled(r.graph) && r.graphHash == HashOf(r.graph)
    ensures forall h :: RevisionOk(Rooted(r), h)
  {
  }

  lemma RootedOk(r: Revision)
    requires Settled(r.graph) && r.graphHash == HashOf(r.graph)
    ensures KernelOk(Rooted(r))
  {
    RootedChain(r);
    RootedRevision(r);
    RootedIndex(r);
  }

  lemma StartOk(initial: Graph)
    requires WfGraph(initial) && Start(initial).Ok?
    ensures KernelOk(Start(initial).value)
  {
    var g := Normalize(initial);
    NormalizeKeepsWf(initial);
    NormalizeKeepsValidity(initial);
    ValidNormalizeTwice(initial);
    RootedOk(Revision(GenesisHash(HashOf(g)), None, 0, g, HashOf(g), [], None, None));
  }

  lemma StartFromOk(r: Revision)
    requires WfGraph(r.graph) && StartFrom(r).Ok?
    ensures KernelOk(StartFrom(r).value)
  {
    RootedOk(r);
  }

  // ---------- One changed transaction ----------

  /** Replacing one transaction, nothing else, keeps the chain and the other transactions. */
  lemma SameRevisions(k: Kernel, k': Kernel)
    requires k'.revisions == k.revisions && k'.head == k.head && Linear(k) && (forall h :: RevisionOk(k, h))
    ensures Linear(k') && (forall h :: RevisionOk(k', h))
  {
    var chain :| Chained(k, chain);
    assert Chained(k', chain) by {
      forall i | 0 < i < |chain| ensures Follows(k', chain[i - 1], chain[i]) { assert Follows(k, chain[i - 1], chain[i]); }
    }
    forall h ensures RevisionOk(k', h) { assert RevisionOk(k, h); }
  }

  lemma SameTransaction(k: Kernel, k': Kernel, x: Id)
    requires TransactionOk(k, x) && k'.revisions == k.revisions && k'.authorizations == k.authorizations
    requires x in k.transactions <==> x in k'.transactions
    requires x in k.transactions ==> k'.transactions[x] == k.transactions[x]
    ensures TransactionOk(k', x)
  {
  }

  lemma ReplaceTransaction(k: Kernel, k': Kernel, id: Id, t: Transaction)
    requires Linear(k) && (forall h :: RevisionOk(k, h)) && (forall x :: TransactionOk(k, x))
    requires k' == k.(transactions := k.transactions[id := t], idempotency := k'.idempotency, commandIds := k'.commandIds)
    requires TransactionOk(k', id)
    ensures Linear(k') && (forall h :: RevisionOk(k', h)) && (forall x :: TransactionOk(k', x))
  {
    SameRevisions(k, k');
    forall x ensures TransactionOk(k', x) {
      if x != id {
        SameTransaction(k, k', x);
      }
    }
  }

  /** The indexes do not care about evidence, nor about a new transaction without commands. */
  lemma IndexKeeps(k: Kernel, id: Id, t: Transaction)
    requires IndexOk(k)
    requires if id in k.transactions then t.commands == k.transactions[id].commands else t.commands == []
    requires id in k.authorizations ==> t.state == Committed
    ensures IndexOk(k.(transactions := k.transactions[id := t]))
  {
    var txs := k.transactions[id := t];
    forall x, c ensures Indexed(txs, k.idempotency, k.commandIds, x, c) {
      assert Indexed(k.transactions, k.idempotency, k.commandIds, x, c);
    }
    forall e ensures KeyOwned(txs, k.idempotency, e) { assert KeyOwned(k.transactions, k.idempotency, e); }
    forall x ensures IdOwned(txs, k.commandIds, x) { assert IdOwned(k.transactions, k.commandIds, x); }
  }

  lemma NewTransactionOk(k: Kernel, id: Id)
    requires k.head in k.revisions && RevisionOk(k, k.head)
    ensures TransactionOk(k.(transactions := k.transactions[id := NewTransaction(k, id)]), id)
  {
  }

  lemma BeginKeeps(k: Kernel, id: Id, base: Digest)
    requires KernelOk(k)
    ensures KernelOk(Begin(k, id, base).0)
  {
    if id !in k.transactions && base == k.head {
      var t := NewTransaction(k, id);
      assert RevisionOk(k, k.head);
      NewTransactionOk(k, id);
      ReplaceTransaction(k, k.(transactions := k.transactions[id := t]), id, t);
      IndexKeeps(k, id, t);
    }
  }

  /** Changing only the evidence of an unfinished transaction. */
  ghost predicate OnlyEvidence(t: Transaction, u: Transaction) {
    u == t.(state := u.state, report := u.report, verifiedPreview := u.verifiedPreview, gatePassed := u.gatePassed)
  }

  lemma EvidenceTransactionOk(k: Kernel, id: Id, u: Transaction)
    requires id in k.transactions && TransactionOk(k, id) && OnlyEvidence(k.transactions[id], u)
    requires u.state != Committed && EvidenceOk(k, u)
    ensures TransactionOk(k.(transactions := k.transactions[id := u]), id)
  {
    assert PreviewOf(u) == PreviewOf(k.transactions[id]);
  }

  lemma EvidenceKeeps(k: Kernel, id: Id, u: Transaction)
    requires KernelOk(k) && id in k.transactions && OnlyEvidence(k.transactions[id], u)
    requires k.transactions[id].state != Committed && u.state != Committed && EvidenceOk(k, u)
    ensures KernelOk(k.(transactions := k.transactions[id := u]))
  {
    assert TransactionOk(k, id);
    EvidenceTransactionOk(k, id, u);
    ReplaceTransaction(k, k.(transactions := k.transactions[id := u]), id, u);
    IndexKeeps(k, id, u);
  }

  /** Recording evidence changes nothing, or only the evidence of an open transaction. */
  lemma VerifyCases(k: Kernel, id: Id, report: Digest, gate: bool, claimed: Option<Digest>)
    ensures var k' := Verify(k, id, report, gate, claimed).0;
            || k' == k
            || (&& id in k.transactions && k.transactions[id].state == Open
                && var t := k.transactions[id];
                   k' == k.(transactions := k.transactions[id :=
                     t.(state := if gate then Verified else Open, report := Some(report), gatePassed := gate, verifiedPreview := Some(t.preview))]))
  {
  }

  lemma RecordedEvidence(k: Kernel, t: Transaction, report: Digest, gate: bool)
    requires EvidenceOk(k, t) && t.state == Open
    ensures var u := t.(state := if gate then Verified else Open, report := Some(report), gatePassed := gate, verifiedPreview := Some(t.preview));
            EvidenceOk(k, u) && OnlyEvidence(t, u) && u.state != Committed
  {
  }

  lemma VerifyKeeps(k: Kernel, id: Id, report: Digest, gate: bool, claimed: Option<Digest>)
    requires KernelOk(k)
    ensures KernelOk(Verify(k, id, report, gate, claimed).0)
  {
    var k' := Verify(k, id, report, gate, claimed).0;
    VerifyCases(k, id, report, gate, claimed);
    if k' != k {
      assert TransactionOk(k, id);
      RecordedEvidence(k, k.transactions[id], report, gate);
      EvidenceKeeps(k, id, k'.transactions[id]);
    }
  }

  lemma RollbackKeeps(k: Kernel, id: Id)
    requires KernelOk(k)
    ensures KernelOk(Rollback(k, id).0)
  {
    var k' := Rollback(k, id).0;
    if k' != k {
      assert TransactionOk(k, id);
      EvidenceKeeps(k, id, k'.transactions[id]);
    }
  }

  // ---------- Staging ----------

  /** An accepted command is one more effective step of the fold. */
  lemma ExtendIsEffect(t: Transaction, c: Command)
    requires WfGraph(t.staged) && Extend(t, c).Ok?
    ensures var u := Extend(t, c).value;
            CommandEffect(t.staged, c) == Some(u.staged) && Settled(u.staged) && u == WithCommand(t, u.staged, c)
  {
    StepSettles(t.staged, c.op);
  }

  lemma WithCommandFolds(k: Kernel, t: Transaction, g: Graph, c: Command)
    requires Folds(k, t) && CommandEffect(t.staged, c) == Some(g)
    ensures Folds(k, WithCommand(t, g, c))
  {
    RunSnoc(CommandEffect, k.revisions[t.base].graph, t.commands, c);
  }

  lemma WithCommandCommands(t: Transaction, g: Graph, c: Command)
    requires CommandsOk(t) && c.transactionId == t.id && c.base == t.base
    requires forall d :: d in t.commands ==> d.id != c.id && d.key != c.key
    ensures CommandsOk(WithCommand(t, g, c))
  {
    var cs := t.commands + [c];
    forall i, j | 0 <= i < j < |cs| ensures cs[i].id != cs[j].id && cs[i].key != cs[j].key {
      assert cs[i] in t.commands;
    }
  }

  lemma PreviewIgnoresEvidence(t: Transaction)
    ensures PreviewOf(Refresh(t)) == Refresh(t).preview
  {
  }

  lemma PublishTransaction(k: Kernel, c: Command, u: Transaction)
    requires c.transactionId in k.transactions && TransactionOk(k, c.transactionId)
    requires var t := k.transactions[c.transactionId];
             && t.state == Open && c.base == t.base && Extend(t, c) == Ok(u)
             && forall d :: d in t.commands ==> d.id != c.id && d.key != c.key
    ensures TransactionOk(Publish(k, u, c), c.transactionId)
  {
    var t := k.transactions[c.transactionId];
    ExtendIsEffect(t, c);
    WithCommandFolds(k, t, u.staged, c);
    WithCommandCommands(t, u.staged, c);
    PreviewIgnoresEvidence(t.(staged := u.staged, commands := t.commands + [c], report := None, verifiedPreview := None, gatePassed := false));
    assert Folds(Publish(k, u, c), u);
  }

  lemma PublishIndex(k: Kernel, c: Command, u: Transaction)
    requires IndexOk(k) && c.transactionId in k.transactions && u.state == k.transactions[c.transactionId].state
    requires u.commands == k.transactions[c.transactionId].commands + [c]
    requires (c.transactionId, c.key) !in k.idempotency && c.id !in k.commandIds
    ensures IndexOk(Publish(k, u, c))
  {
    var k' := Publish(k, u, c);
    forall x, d ensures Indexed(k'.transactions, k'.idempotency, k'.commandIds, x, d) {
      assert Indexed(k.transactions, k.idempotency, k.commandIds, x, d);
    }
    forall e ensures KeyOwned(k'.transactions, k'.idempotency, e) { assert KeyOwned(k.transactions, k.idempotency, e); }
    forall x ensures IdOwned(k'.transactions, k'.commandIds, x) { assert IdOwned(k.transactions, k.commandIds, x); }
  }

  lemma NewCommand(k: Kernel, c: Command)
    requires IndexOk(k) && c.transactionId in k.transactions
    requires (c.transactionId, c.key) !in k.idempotency && c.id !in k.commandIds
    ensures forall d :: d in k.transactions[c.transactionId].commands ==> d.id != c.id && d.key != c.key
  {
    forall d | d in k.transactions[c.transactionId].commands ensures d.id != c.id && d.key != c.key {
      assert Indexed(k.transactions, k.idempotency, k.commandIds, c.transactionId, d);
    }
  }

  /** A stage call changes nothing, or publishes one more command of an open transaction. */
  lemma StageWithCases(k: Kernel, c: Command, e: Result<Transaction>)
    ensures StageWith(k, c, e).0 == k
            || (&& c.transactionId in k.transactions && c.base == k.transactions[c.transactionId].base
                && k.transactions[c.transactionId].state == Open
                && (c.transactionId, c.key) !in k.idempotency && c.id !in k.commandIds
                && e.Ok? && StageWith(k, c, e).0 == Publish(k, e.value, c))
  {
  }

  lemma PublishKeeps(k: Kernel, c: Command, u: Transaction)
    requires KernelOk(k) && c.transactionId in k.transactions && c.base == k.transactions[c.transactionId].base
    requires k.transactions[c.transactionId].state == Open && Extend(k.transactions[c.transactionId], c) == Ok(u)
    requires (c.transactionId, c.key) !in k.idempotency && c.id !in k.commandIds
    ensures KernelOk(Publish(k, u, c))
  {
    NewCommand(k, c);
    assert TransactionOk(k, c.transactionId);
    ExtendIsEffect(k.transactions[c.transactionId], c);
    PublishTransaction(k, c, u);
    PublishIndex(k, c, u);
    ReplaceTransaction(k, Publish(k, u, c), c.transactionId, u);
  }

  lemma StageKeeps(k: Kernel, c: Command)
    requires KernelOk(k)
    ensures KernelOk(Stage(k, c).0)
  {
    var e := if c.transactionId in k.transactions then Extend(k.transactions[c.transactionId], c) else Err(UnknownTransaction);
    StageWithCases(k, c, e);
    if Stage(k, c).0 != k {
      PublishKeeps(k, c, e.value);
    }
  }

  lemma {:induction false} StageEachKeeps(k: Kernel, t: Transaction, batch: seq<Command>)
    requires KernelOk(k)
    ensures KernelOk(StageEach(k, t, batch).0)
    decreases |batch|
  {
    if batch != [] {
      StageKeeps(k, batch[0]);
      var (k', r) := Stage(k, batch[0]);
      if r.Ok? {
        StageEachKeeps(k', r.value, batch[1..]);
      }
    }
  }

  lemma StageBatchKeeps(k: Kernel, batch: seq<Command>)
    requires KernelOk(k)
    ensures KernelOk(StageBatch(k, batch).0)
  {
    BatchRefinesStaging(k, batch);
    if StageBatch(k, batch).1.Ok? {
      StageEachKeeps(k, k.transactions[batch[0].transactionId], batch);
    }
  }

  // ---------- Commit ----------

  lemma {:induction false} ChainDepth(k: Kernel, chain: seq<Digest>, i: nat)
    requires Chained(k, chain) && i < |chain|
    ensures Depth(chain[i]) + (|chain| - 1 - i) == Depth(k.head)
    decreases |chain| - i
  {
    if i + 1 < |chain| {
      assert Follows(k, chain[i], chain[i + 1]);
      ChainDepth(k, chain, i + 1);
    }
  }

  lemma NewRevisionIsNew(k: Kernel, h: Digest)
    requires Linear(k) && Depth(h) == Depth(k.head) + 1
    ensures h !in k.revisions
  {
    var chain :| Chained(k, chain);
    forall i | 0 <= i < |chain| ensures chain[i] != h { ChainDepth(k, chain, i); }
  }

  lemma CommitExtendsChain(k: Kernel, k': Kernel, r: Revision)
    requires Linear(k) && k.head in k.revisions && r.hash !in k.revisions
    requires k'.revisions == k.revisions[r.hash := r] && k'.head == r.hash
    requires r.parent == Some(k.head) && r.sequence == k.revisions[k.head].sequence + 1 && Depth(r.hash) == Depth(k.head) + 1
    ensures Linear(k')
  {
    var chain :| Chained(k, chain);
    var longer := chain + [r.hash];
    forall i | 0 < i < |longer| ensures Follows(k', longer[i - 1], longer[i]) {
      if i < |chain| { assert Follows(k, chain[i - 1], chain[i]); }
    }
    assert Chained(k', longer);
  }

  lemma OtherEvidenceOk(k: Kernel, k': Kernel, r: Revision, id: Id, d: A.AuthDigest, t: Transaction)
    requires EvidenceOk(k, t) && t.id != id && r.hash !in k.revisions
    requires k'.revisions == k.revisions[r.hash := r] && k'.authorizations == k.authorizations[id := d]
    ensures EvidenceOk(k', t)
  {
  }

  lemma OtherTransactionsOk(k: Kernel, k': Kernel, r: Revision, id: Id, t: Transaction, d: A.AuthDigest, x: Id)
    requires TransactionOk(k, x) && x != id && r.hash !in k.revisions
    requires k'.revisions == k.revisions[r.hash := r]
    requires k'.transactions == k.transactions[id := t] && k'.authorizations == k.authorizations[id := d]
    ensures TransactionOk(k', x)
  {
    if x in k.transactions { OtherEvidenceOk(k, k', r, id, d, k.transactions[x]); }
  }

  /** What the plan established about the transaction it publishes. */
  lemma PlanFacts(k: Kernel, id: Id, v: A.Verified)
    requires k.head in k.revisions && id in k.transactions && PlanCommit(k, id, v).Publishing?
    ensures var t := k.transactions[id];
            && t.state == Verified && t.base == k.head && t.commands != [] && Bound(t, v) && v.previous.None?
            && PlanCommit(k, id, v).revision == NewRevision(k, t, v.capability.claims)
  {
  }

  /** The new revision records exactly the transaction it publishes. */
  lemma CommittedRecorded(k: Kernel, id: Id, v: A.Verified, used: A.Consumption, r: Revision)
    requires k.head in k.revisions && id in k.transactions && RevisionOk(k, k.head)
    requires var t := k.transactions[id];
             && t.id == id && t.base == k.head && t.commands != [] && Bound(t, v) && Normalize(t.staged) == t.staged && t.preview == PreviewOf(t)
             && r == NewRevision(k, t, v.capability.claims)
    requires v.capability.digest == A.AuthDigest(v.capability.claims)
    ensures Recorded(Commit'(k, id, r, v, used), Commit'(k, id, r, v, used).transactions[id])
  {
  }

  lemma CommittedRevisionOk(k: Kernel, id: Id, v: A.Verified, used: A.Consumption, r: Revision)
    requires k.head in k.revisions && id in k.transactions && Settled(k.transactions[id].staged)
    requires r == NewRevision(k, k.transactions[id], v.capability.claims)
    ensures RevisionOk(Commit'(k, id, r, v, used), r.hash)
  {
  }

  /** A transaction that only became committed, and is recorded, keeps its part of the invariant. */
  lemma RecordedIsOk(k: Kernel, k': Kernel, id: Id, h: Digest)
    requires TransactionOk(k, id) && id in k.transactions && k.transactions[id].gatePassed
    requires k.transactions[id].base in k.revisions && k.transactions[id].base in k'.revisions
    requires k'.revisions[k.transactions[id].base] == k.revisions[k.transactions[id].base]
    requires id in k'.transactions && k'.transactions[id] == k.transactions[id].(state := Committed, revision := Some(h))
    requires Recorded(k', k'.transactions[id])
    ensures TransactionOk(k', id)
  {
    assert PreviewOf(k'.transactions[id]) == PreviewOf(k.transactions[id]);
    assert Folds(k', k'.transactions[id]);
  }

  lemma CommittedTransactionOk(k: Kernel, id: Id, v: A.Verified, used: A.Consumption, r: Revision)
    requires k.head in k.revisions && id in k.transactions && TransactionOk(k, id) && RevisionOk(k, k.head)
    requires var t := k.transactions[id];
             && t.state == Verified && t.base == k.head && t.commands != [] && Bound(t, v)
             && r == NewRevision(k, t, v.capability.claims)
    requires r.hash !in k.revisions && v.capability.digest == A.AuthDigest(v.capability.claims)
    ensures TransactionOk(Commit'(k, id, r, v, used), id)
  {
    CommittedRecorded(k, id, v, used, r);
    RecordedIsOk(k, Commit'(k, id, r, v, used), id, r.hash);
  }

  lemma CommitIndex(k: Kernel, id: Id, r: Revision, v: A.Verified, used: A.Consumption)
    requires IndexOk(k) && id in k.transactions
    ensures IndexOk(Commit'(k, id, r, v, used))
  {
    var k' := Commit'(k, id, r, v, used);
    forall x, d ensures Indexed(k'.transactions, k'.idempotency, k'.commandIds, x, d) {
      assert Indexed(k.transactions, k.idempotency, k.commandIds, x, d);
    }
    forall e ensures KeyOwned(k'.transactions, k'.idempotency, e) { assert KeyOwned(k.transactions, k.idempotency, e); }
    forall x ensures IdOwned(k'.transactions, k'.commandIds, x) { assert IdOwned(k.transactions, k.commandIds, x); }
  }

  lemma NewRevisionFacts(k: Kernel, t: Transaction, c: A.Claims)
    requires k.head in k.revisions && k.revisions[k.head].hash == k.head
    ensures var r := NewRevision(k, t, c);
            r.parent == Some(k.head) && r.sequence == k.revisions[k.head].sequence + 1 && Depth(r.hash) == Depth(k.head) + 1
  {
  }

  lemma CommitRevisions(k: Kernel, id: Id, r: Revision, v: A.Verified, used: A.Consumption)
    requires (forall h :: RevisionOk(k, h)) && id in k.transactions && r.hash !in k.revisions
    requires RevisionOk(Commit'(k, id, r, v, used), r.hash)
    ensures forall h :: RevisionOk(Commit'(k, id, r, v, used), h)
  {
    forall h ensures RevisionOk(Commit'(k, id, r, v, used), h) { assert RevisionOk(k, h); }
  }

  lemma CommitTransactions(k: Kernel, k': Kernel, id: Id, r: Revision, t: Transaction, d: A.AuthDigest)
    requires (forall x :: TransactionOk(k, x)) && r.hash !in k.revisions && TransactionOk(k', id)
    requires k'.revisions == k.revisions[r.hash := r]
    requires k'.transactions == k.transactions[id := t] && k'.authorizations == k.authorizations[id := d]
    ensures forall x :: TransactionOk(k', x)
  {
    forall x ensures TransactionOk(k', x) {
      if x != id { OtherTransactionsOk(k, k', r, id, t, d, x); }
    }
  }

  lemma CommitParts(k: Kernel, id: Id, r: Revision, v: A.Verified, used: A.Consumption)
    requires (forall h :: RevisionOk(k, h)) && (forall x :: TransactionOk(k, x))
    requires id in k.transactions && r.hash !in k.revisions
    requires TransactionOk(Commit'(k, id, r, v, used), id) && RevisionOk(Commit'(k, id, r, v, used), r.hash)
    ensures (forall h :: RevisionOk(Commit'(k, id, r, v, used), h)) && (forall x :: TransactionOk(Commit'(k, id, r, v, used), x))
  {
    var k' := Commit'(k, id, r, v, used);
    CommitRevisions(k, id, r, v, used);
    CommitTransactions(k, k', id, r, k'.transactions[id], v.capability.digest);
  }

  lemma PublishRevisionKeeps(k: Kernel, id: Id, v: A.Verified, used: A.Consumption)
    requires KernelOk(k) && id in k.transactions && PlanCommit(k, id, v).Publishing?
    requires v.capability.digest == A.AuthDigest(v.capability.claims)
    ensures KernelOk(Commit'(k, id, PlanCommit(k, id, v).revision, v, used))
  {
    var r := PlanCommit(k, id, v).revision;
    PlanFacts(k, id, v);
    assert TransactionOk(k, id) && RevisionOk(k, k.head);
    NewRevisionFacts(k, k.transactions[id], v.capability.claims);
    NewRevisionIsNew(k, r.hash);
    CommittedTransactionOk(k, id, v, used, r);
    CommittedRevisionOk(k, id, v, used, r);
    CommitParts(k, id, r, v, used);
    CommitExtendsChain(k, Commit'(k, id, r, v, used), r);
    CommitIndex(k, id, r, v, used);
  }

  /** What a verified capability is made of. */
  lemma VerifiedCapability(cfg: A.Config, s: A.State, cap: A.Capability, now: int)
    requires A.Verify(cfg, s, cap, now).1.Done?
    ensures var v := A.Verify(cfg, s, cap, now).1.value; v.capability == cap && cap.digest == A.AuthDigest(cap.claims)
  {
  }

  /** What the first half of a commit leaves for the second, as long as the kernel stays locked. */
  ghost predicate TicketOk(k: Kernel, t: Ticket) {
    && k.head in k.revisions && t.id in k.transactions
    && PlanCommit(k, t.id, t.verified) == Publishing(t.revision)
    && t.verified.capability.digest == A.AuthDigest(t.verified.capability.claims)
  }

  lemma ChecksGiveTicket(cfg: A.Config, k: Kernel, s: A.State, id: Id, cap: A.Capability, now: int)
    requires k.head in k.revisions && CommitChecks(Some(cfg), k, s, id, cap, now).1.Waiting?
    ensures var t := CommitChecks(Some(cfg), k, s, id, cap, now).1.ticket; TicketOk(k, t) && t.id == id && t.verified.capability == cap
  {
    VerifiedCapability(cfg, s, cap, now);
  }

  lemma FinishKeeps(cfg: A.Config, k: Kernel, s: A.State, t: Ticket, later: int)
    requires KernelOk(k) && TicketOk(k, t)
    ensures KernelOk(CommitFinish(cfg, k, s, t, later).0)
  {
    if A.Consume(cfg, s, t.verified, later).1.Done? {
      PublishRevisionKeeps(k, t.id, t.verified, A.Consume(cfg, s, t.verified, later).1.value);
    }
  }

  lemma CommitKeeps(cfg: Option<A.Config>, k: Kernel, s: A.State, id: Id, cap: A.Capability, now: int, between: seq<(A.Call, int)>, later: int)
    requires KernelOk(k)
    ensures KernelOk(Commit(cfg, k, s, id, cap, now, between, later).0)
  {
    var (s1, half) := CommitChecks(cfg, k, s, id, cap, now);
    if half.Waiting? {
      ChecksGiveTicket(cfg.value, k, s, id, cap, now);
      FinishKeeps(cfg.value, k, A.AfterAll(cfg.value, s1, between), half.ticket, later);
    }
  }

  /** A refused commit leaves the kernel as it was; so does a retry of a finished one. */
  lemma RefusedCommitChangesNothing(cfg: Option<A.Config>, k: Kernel, s: A.State, id: Id, cap: A.Capability, now: int, between: seq<(A.Call, int)>, later: int)
    requires k.head in k.revisions
    ensures var (k', s', r) := Commit(cfg, k, s, id, cap, now, between, later);
            && (r.Err? ==> k' == k)
            && (r.Ok? && id in k.transactions && k.transactions[id].state == Committed ==> k' == k)
  {
  }

  lemma RetryPlan(k: Kernel, id: Id, v: A.Verified, r: Revision, used: A.Consumption, w: A.Verified)
    requires k.head in k.revisions && id in k.transactions
    requires k.transactions[id].commands != [] && Bound(k.transactions[id], v)
    requires w.capability == v.capability && w.approval == v.approval && w.previous == Some(v.capability.digest)
    ensures r.hash in Commit'(k, id, r, v, used).revisions
    ensures PlanCommit(Commit'(k, id, r, v, used), id, w) == Retry(r)
  {
    var k' := Commit'(k, id, r, v, used);
    assert Bound(k'.transactions[id], w);
  }

  /** A successful first commit is exactly one publication. */
  lemma CommitPublished(cfg: A.Config, k: Kernel, s: A.State, id: Id, cap: A.Capability, now: int, between: seq<(A.Call, int)>, later: int)
    requires k.head in k.revisions && id in k.transactions && k.transactions[id].state != Committed
    requires Commit(Some(cfg), k, s, id, cap, now, between, later).2.Ok?
    ensures A.Verify(cfg, s, cap, now).1.Done?
    ensures var (s0, verified) := A.Verify(cfg, s, cap, now);
            var v, s1 := verified.value, A.AfterAll(cfg, s0, between);
            && PlanCommit(k, id, v).Publishing? && A.Consume(cfg, s1, v, later).1.Done?
            && var r := PlanCommit(k, id, v).revision;
               Commit(Some(cfg), k, s, id, cap, now, between, later) ==
                 (Commit'(k, id, r, v, A.Consume(cfg, s1, v, later).1.value), A.Consume(cfg, s1, v, later).0, Ok(r))
  {
  }

  /** After the consumption the authority still holds the approval that the first verification saw, and the use. */
  lemma VerifiedAgain(cfg: A.Config, s: A.State, cap: A.Capability, now: int, between: seq<(A.Call, int)>, later: int, again: int)
    requires A.Sound(cfg, s) && A.Verify(cfg, s, cap, now).1.Done?
    requires var (s0, verified) := A.Verify(cfg, s, cap, now); A.Consume(cfg, A.AfterAll(cfg, s0, between), verified.value, later).1.Done?
    ensures var (s0, verified) := A.Verify(cfg, s, cap, now);
            var s2 := A.Consume(cfg, A.AfterAll(cfg, s0, between), verified.value, later).0;
            A.Verify(cfg, s2, cap, again).1.Done? ==>
              var w := A.Verify(cfg, s2, cap, again).1.value;
              w.capability == cap && verified.value.capability == cap && w.approval == verified.value.approval && w.previous == Some(cap.digest)
  {
    var (s0, verified) := A.Verify(cfg, s, cap, now);
    A.CallKeepsSound(cfg, s, A.DoVerify(cap), now);
    A.RunKeepsSound(cfg, s0, between);
  }

  lemma RetryCommits(cfg: A.Config, k: Kernel, s: A.State, id: Id, cap: A.Capability, now: int, between: seq<(A.Call, int)>, later: int, r: Revision)
    requires k.head in k.revisions && id in k.transactions && A.Verify(cfg, s, cap, now).1.Done?
    requires PlanCommit(k, id, A.Verify(cfg, s, cap, now).1.value) == Retry(r)
    ensures Commit(Some(cfg), k, s, id, cap, now, between, later).0 == k && Commit(Some(cfg), k, s, id, cap, now, between, later).2 == Ok(r)
  {
  }

  /** Retrying a commit with its own capability returns the same revision and changes nothing, whatever others do to the authority. */
  lemma RetryReturnsSameRevision(cfg: A.Config, k: Kernel, s: A.State, id: Id, cap: A.Capability, now: int, between: seq<(A.Call, int)>, later: int, again: int, during: seq<(A.Call, int)>, last: int)
    requires k.head in k.revisions && id in k.transactions && k.transactions[id].state != Committed && A.Sound(cfg, s)
    requires Commit(Some(cfg), k, s, id, cap, now, between, later).2.Ok?
    ensures var (k1, s1, r1) := Commit(Some(cfg), k, s, id, cap, now, between, later);
            k1.head in k1.revisions &&
            var (k2, s2, r2) := Commit(Some(cfg), k1, s1, id, cap, again, during, last);
            A.Verify(cfg, s1, cap, again).1.Done? ==> r2 == r1 && k2 == k1
  {
    CommitPublished(cfg, k, s, id, cap, now, between, later);
    var (s0, verified) := A.Verify(cfg, s, cap, now);
    var v := verified.value;
    PlanFacts(k, id, v);
    var (k1, s1, r1) := Commit(Some(cfg), k, s, id, cap, now, between, later);
    VerifiedAgain(cfg, s, cap, now, between, later, again);
    if A.Verify(cfg, s1, cap, again).1.Done? {
      RetryPlan(k, id, v, r1.value, A.Consume(cfg, A.AfterAll(cfg, s0, between), v, later).1.value, A.Verify(cfg, s1, cap, again).1.value);
      RetryCommits(cfg, k1, s1, id, cap, again, during, last, r1.value);
    }
  }
}
