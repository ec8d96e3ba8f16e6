/**
 The compiler and the kernel together: staging the compiled commands of a graph as one batch,
 in a fresh transaction on the empty genesis graph, stages exactly that graph
 (backend/canonical_import/mapper.py:1006-1243, backend/design_kernel/engine.py:384-455).
 */
module ImportStaging {
  import opened Graph
  import opened Commands
  import opened Fold
  import opened Digests
  import opened Kernel
  import opened KernelRuns
  import opened Import
  import opened RoundTrip

  /** No command of the batch meets an entry of the published indexes. */
  ghost predicate Unseen(k: Kernel, batch: seq<Command>) {
    forall i :: 0 <= i < |batch| ==> (batch[i].transactionId, batch[i].key) !in k.idempotency && batch[i].id !in k.commandIds
  }

  lemma ExtendExactly(t: Transaction, c: Command)
    ensures match CommandEffect(t.staged, c)
            case None => Extend(t, c).Err?
            case Some(g) => Extend(t, c) == Ok(WithCommand(t, g, c))
  {
  }

  /** One round on an unseen command is one effective step, or a refusal. */
  lemma RoundExactly(k: Kernel, b: Batch, c: Command, effect: Option<Graph>, extended: Result<Transaction>)
    requires b.transaction.state == Open && (c.transactionId, c.key) !in k.idempotency && c.id !in k.commandIds
    requires match effect case None => extended.Err? case Some(g) => extended == Ok(WithCommand(b.transaction, g, c))
    ensures match effect
            case None => Round(k, b, c, extended).Err?
            case Some(g) => && Round(k, b, c, extended).Ok?
                            && var n := Round(k, b, c, extended).value;
                               n.transaction.state == Open && n.transaction.staged == g && n.keys != map[]
  {
    if effect.Some? {
      assert (c.transactionId, c.key) in Round(k, b, c, extended).value.keys;
    }
  }

  lemma {:induction false} BatchRuns(k: Kernel, b: Batch, batch: seq<Command>)
    requires b.transaction.state == Open && Unseen(k, batch)
    ensures match Run(CommandEffect, b.transaction.staged, batch)
            case None => BatchFrom(k, b, batch).Err?
            case Some(g) => BatchFrom(k, b, batch).Ok? && BatchFrom(k, b, batch).value.transaction.staged == g
    decreases |batch|
  {
    if batch != [] {
      var c := batch[0];
      var effect, extended := CommandEffect(b.transaction.staged, c), Extend(b.transaction, c);
      ExtendExactly(b.transaction, c);
      RoundExactly(k, b, c, effect, extended);
      if effect.Some? {
        BatchRuns(k, Round(k, b, c, extended).value, batch[1..]);
      }
    }
  }

  lemma {:induction false} SameRun(g: Graph, batch: seq<Command>, ops: seq<Op>)
    requires |batch| == |ops| && forall i :: 0 <= i < |ops| ==> batch[i].op == ops[i]
    ensures Run(CommandEffect, g, batch) == Run(Effect, g, ops)
    decreases |ops|
  {
    if ops != [] && Effect(g, ops[0]).Some? {
      SameRun(Effect(g, ops[0]).value, batch[1..], ops[1..]);
    }
  }

  /** The batch carries the compiled payloads of `g` into transaction `id`, under names nobody used. */
  ghost predicate Compiled(k: Kernel, id: Id, batch: seq<Command>, g: Graph) {
    && id in k.transactions && WellShaped(batch) && Unseen(k, batch)
    && batch[0].transactionId == id && batch[0].base == k.transactions[id].base
    && |batch| == |Payloads(g)| && forall i :: 0 <= i < |batch| ==> batch[i].op == Payloads(g)[i]
  }

  lemma BatchStages(k: Kernel, id: Id, batch: seq<Command>, t: Transaction)
    requires WellShaped(batch) && batch[0].transactionId == id && id in k.transactions && k.transactions[id] == t
    requires batch[0].base == t.base && t.state == Open && Unseen(k, batch)
    ensures match Run(CommandEffect, t.staged, batch)
            case None => StageBatch(k, batch).1.Err?
            case Some(g) => StageBatch(k, batch).1.Ok? && StageBatch(k, batch).1.value.staged == g
  {
    BatchRuns(k, Batch(t, map[], map[]), batch);
  }

  /**
   Staging the compiled commands of a graph on the empty graph succeeds with exactly that graph
   staged, if and only if the graph is valid, canonical, on the default layers and unfilled.
   */
  lemma CompiledGraphStages(k: Kernel, id: Id, batch: seq<Command>, g: Graph)
    requires WfGraph(g) && Compiled(k, id, batch, g) && k.transactions[id].state == Open
    requires k.transactions[id].staged == EmptyGraph(g.projectId)
    ensures StageBatch(k, batch).1.Ok? && StageBatch(k, batch).1.value.staged == g <==> Importable(g)
  {
    BatchStages(k, id, batch, k.transactions[id]);
    SameRun(EmptyGraph(g.projectId), batch, Payloads(g));
    CompileReplayRoundTrip(g);
  }

  // ---------- Naming the commands ----------

  /** Command IDs and idempotency keys derived from the position and payload of a command. */
  datatype Naming = Naming(commandId: (nat, Op) -> Id, key: (nat, Op) -> Id)

  /** Different positions give different names: the names are digests that cover the position. */
  ghost predicate Injective(n: Naming) {
    forall i: nat, j: nat, a, b :: i != j ==> n.commandId(i, a) != n.commandId(j, b) && n.key(i, a) != n.key(j, b)
  }

  function NamedCommand(n: Naming, base: Digest, transactionId: Id, actor: Id, i: nat, op: Op): Command {
    Command(n.commandId(i + 1, op), base, transactionId, actor, op, n.key(i + 1, op))
  }

  method TransactionInput(n: Naming, base: Digest, transactionId: Id, actor: Id, g: Graph) returns (commands: seq<Command>)
    ensures |commands| == |Payloads(g)|
    ensures forall i :: 0 <= i < |commands| ==> commands[i] == NamedCommand(n, base, transactionId, actor, i, Payloads(g)[i])
    ensures Injective(n) && commands != [] ==> WellShaped(commands)
  {
    var payloads := CompileGraph(g);
    commands := [];
    for k := 0 to |payloads|
      invariant |commands| == k
      invariant forall i :: 0 <= i < k ==> commands[i] == NamedCommand(n, base, transactionId, actor, i, payloads[i])
    {
      commands := commands + [NamedCommand(n, base, transactionId, actor, k, payloads[k])];
    }
  }
}
