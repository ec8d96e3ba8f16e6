# Verified model of the canonical design kernel and import approval

This project models four linked parts of the backend and proves what they promise.

* **Design graph and geometry** (`Geometry`, `Ring`, `Polygon`, `Wiring`, `Graph`, `Validation`, `Mirror`, `Normalization`, `Canonical`, `Crossings`).
  Integer segment tests are proved to decide questions about real points; an accepted ring is a simple polygon; the ring normal form and the graph normal form are canonical; the loops of `validate_graph` accept exactly the graphs that meet the declared rules.
* **Transaction kernel and commit authority** (`Commands`, `CommandEffects`, `Digests`, `Kernel`, `KernelRuns`, `KernelEffects`, `KernelObject`, `Authority`, `SharedAuthority`, `CommittedHistory`, `Diff`).
  The kernel and the authority are state machines on values, with theorems over whole runs and, for every command and call, exactly when it succeeds and what it changes; classes that update fields in place are proved to do what the value functions say.
* **Import compiler and net namespace** (`Import`, `Parts`, `RoundTrip`, `ImportStaging`, `Namespace`).
  Compiling a graph to commands and replaying them gives the graph back exactly for the graphs the importer is for; the PCB/schematic net resolution is a bijection that keeps connectivity.
* **Approval lifecycle and anchored ledger** (`Ledger`, `LedgerRuns`, `Approval`, `ApprovalEffects`, `ApprovalRuns`, `ApprovalFences`, `ApprovalClients`, `ApprovalObject`, `Codec`).
  The ledger protocol runs step by step for any number of clients with crashes and lost replies; replay rebuilds the memory that is kept incrementally, also when several contracts interleave on one ledger; the reach of a rejection fence is stated exactly.

`TaskDag` is the acyclicity check of proposed tasks. `Lex`, `Sorting`, `Fold` and `Dictionary` are shared helpers.

How the system's pieces are represented:

* Coordinates, times and generations are unbounded integers; real points are pairs of `real`.
* SHA-256 digests and HMAC seals are free constructors over what they cover, so equal digests cover equal content. A field that the source derives from other fields (a digest of the command hashes, an ID made from a digest) is either such a constructor or omitted.
* The clock, the behaviour of the anchor register towards each call, the nonce of a capability, the digest that turns a net name into an ID and the text form of a timestamp are parameters.
* A raised exception is a failure value. A failed call returns the state its source leaves behind, half-done writes included.
* A commit takes the authority's lock twice, to verify and to consume. Its two halves are two steps, and anything may happen to the authority in between.
* Sort keys are sequences of code points; Python's order on strings and tuples is lexicographic order on them.

Three claims about the code turn out to need a condition, and each condition is proved exact:

* A wire can be accepted although it folds back onto itself: only vertices and non-neighbouring segments are tested. `Wiring.AcceptedButFolded` gives such a wire; `Wiring.AcceptedPathSimpleExactly` proves that an accepted wire is simple if and only if neither end lies on the segment next to its own.
* The ring normal form is not idempotent on rings that consist of one repeated vertex; `Ring.RepeatedVertexChanges` gives one; `Ring.NormalFormIdempotentExactly` proves that these are the only exceptions. No polygon the kernel accepts is one of them.
* A rejection fence does not stop idempotent answers: repeating an earlier request or decision for another request with the same fence still succeeds (`ApprovalFences.RetrySucceedsBehindFence`). `ApprovalFences.FenceBlocksExactly` proves that nothing else gets through.

## Model

| member | source | states |
|---|---|---|
| Geometry.PointOnSegmentExact | backend/design_kernel/model.py:155-160 | the integer test holds exactly when the point is a convex combination of the segment's ends |
| Geometry.SegmentsIntersectExact | backend/design_kernel/model.py:163-176 | the cross-product test holds exactly when the two closed segments share a real point, degenerate segments included |
| Geometry.CollinearOverlapExact | backend/design_kernel/model.py:179-184 | for non-degenerate segments the overlap test holds exactly when they share more than one point |
| Geometry.IntersectSymmetries | backend/design_kernel/model.py:163-176 | the test does not depend on the order of the segments or of their ends |
| Geometry.OverlapSymmetries | backend/design_kernel/model.py:179-184 | nor does the overlap test |
| Ring.NormalFormIsLeast | backend/design_kernel/model.py:136-146 | the normal form is the least ring among all rotations of the opened ring and of its reverse |
| Ring.NormalFormCanonical | backend/design_kernel/model.py:130-146 | two rings have one normal form exactly when their opened rings are rotations or reversed rotations of each other |
| Ring.NormalFormIdempotentExactly | backend/design_kernel/model.py:130-146 | normalising twice equals normalising once exactly when the opened ring is not one vertex repeated |
| Ring.RepeatedVertexChanges | backend/design_kernel/model.py:130-146 | on one vertex three times over the second pass changes the ring |
| Polygon.ValidateSimplePolygon | backend/design_kernel/model.py:187-212 | the nested loops accept exactly the rings that satisfy the declared conditions |
| Polygon.AcceptedExactlySimple | backend/design_kernel/model.py:187-212 | accepted means truly simple: any two edges share nothing but the common vertex of neighbours, in both directions |
| Polygon.NormalFormAccepted | backend/design_kernel/model.py:136-212 | a ring is accepted exactly when its normal form is |
| Wiring.ValidatePath | backend/design_kernel/model.py:717-742 | the wire constructor's loops accept exactly the declared paths |
| Wiring.AcceptedPathSimpleExactly | backend/design_kernel/model.py:717-742 | an accepted wire is simple exactly when neither end folds back |
| Wiring.FoldedWireAccepted | backend/design_kernel/model.py:730-742 | every wire of three distinct vertices is accepted, and overlaps itself exactly when its first or its last vertex folds back onto the other segment |
| Wiring.AcceptedButFolded | backend/design_kernel/model.py:730-742 | a concrete accepted wire that is not simple |
| Wiring.ValidatePathPair | backend/design_kernel/model.py:1070-1090 | the segment-by-segment loops accept exactly the clear pairs of wires |
| Wiring.DifferentNetsCrossInside | backend/design_kernel/model.py:1063-1090 | clear segments of different nets share at most one point, interior to both |
| Crossings.ValidGraphNetsMeetOnlyInside | backend/design_kernel/model.py:1063-1090 | in every valid graph wires of different nets on one sheet meet only in single interior points |
| Validation.ValidateGraph | backend/design_kernel/model.py:884-1113 | the whole of `validate_graph`, loops and dictionaries, accepts exactly the graphs that meet every rule |
| Validation.ValidateMembers | backend/design_kernel/model.py:926-941 | net members are known pins, no pin is on two nets, and the pin table built is exact |
| Validation.ValidateSharedLands | backend/design_kernel/model.py:995-1024 | shared-land groups are accepted exactly when every pair of pads obeys the group rules |
| Validation.ValidateHoles | backend/design_kernel/model.py:1026-1048 | plated holes bind matching pads, each pad at most once |
| Validation.ValidateJunctions | backend/design_kernel/model.py:1092-1113 | junctions join two wires of their net and sheet at distinct places |
| Mirror.MirrorValid | backend/design_kernel/model.py:884-1113 | a graph and a record-by-record canonical view of it are both valid or both invalid |
| Normalization.NormalizeKeepsValidity | backend/design_kernel/model.py:835-1113 | normalisation neither breaks nor repairs a graph |
| Normalization.NormalizeKeepsWf | backend/design_kernel/model.py:835-875 | normalised records still satisfy their constructors |
| Normalization.ValidNormalizeTwice | backend/design_kernel/model.py:835-875 | on valid graphs normalisation is idempotent |
| Canonical.NormalizeCanonical | backend/design_kernel/model.py:835-875 | two graphs with distinct identifiers have one normal form exactly when they differ only in order, direction, ring start and half turns of drills |
| Canonical.EquivalentValid | backend/design_kernel/model.py:835-1113 | such a rearrangement of a valid graph is valid and has the same normal form |
| Commands.ApplyKeepsWf | backend/design_kernel/engine.py:796-1163 | every command keeps the constructor conditions of every record |
| Commands.StepSettles | backend/design_kernel/engine.py:366-369 | apply, normalise, validate leads only to valid canonical graphs |
| Commands.RunStep | backend/design_kernel/engine.py:796-1163 | the executable step does what the specification step does; what that is, command by command, is in `CommandEffects` |
| CommandEffects.AppliesExactly | backend/design_kernel/engine.py:796-1163 | every command is applied exactly when its own conditions hold on the objects present |
| CommandEffects.RefusalsExactly | backend/design_kernel/engine.py:796-1163 | which error a refused command raises on a valid graph: a locked object, a pin already on that net, or an invalid command |
| CommandEffects.StagedCommandMeans | backend/design_kernel/engine.py:796-1163 | a staged command adds, joins, replaces or removes exactly the objects it names, and every other collection stays |
| CommandEffects.RemoveComponentExactly | backend/design_kernel/engine.py:858-887 | on a valid staged graph removal succeeds exactly for a known component that no net names and of which nothing is locked; it takes along exactly its placement, pads and holes |
| CommandEffects.PlaceFootprintExactly | backend/design_kernel/engine.py:925-952 | placing succeeds exactly for a known component without locked placement and a rotation within one turn; it replaces that placement alone |
| CommandEffects.PadDefaults | backend/design_kernel/model.py:385-397 | drill sizes a pad leaves out are filled in from those it gives |
| CommandEffects.HoleDefaults | backend/design_kernel/model.py:470-476 | a hole without axis sizes is round |
| Kernel.BatchRefinesStaging | backend/design_kernel/engine.py:348-455 | a batch succeeds exactly when staging its commands one by one does, with the same kernel, and otherwise changes nothing |
| KernelEffects.StartExactly | backend/design_kernel/engine.py:224-250 | the genesis revision has no parent, number zero and the canonical graph, and the kernel holds nothing else |
| KernelEffects.ForkExactly | backend/design_kernel/engine.py:252-288 | a fork is made exactly of a revision that holds its exact valid canonical graph |
| KernelEffects.BeginExactly | backend/design_kernel/engine.py:302-325 | beginning again answers the transaction; a new one must start at the head and stages its graph without commands |
| KernelEffects.StageExactly | backend/design_kernel/engine.py:348-383 | decided commands are answered and change nothing; any other changes exactly its transaction and the two indexes, or nothing |
| KernelEffects.ExtendExactly | backend/design_kernel/engine.py:366-379 | a valid, effective command becomes the last one, voids the evidence and renews the preview digest |
| KernelEffects.RepeatedCommandExactly | backend/design_kernel/engine.py:353-358 | in reachable kernels a reused key is answered exactly for the very command accepted under it |
| KernelEffects.VerifyExactly | backend/design_kernel/engine.py:463-501 | evidence must be for the current preview; field by field what is stored, repeated or refused |
| KernelEffects.RollbackExactly | backend/design_kernel/engine.py:709-724 | every unfinished transaction is ended without evidence, once; committed ones are refused |
| KernelEffects.CommitWaitsExactly | backend/design_kernel/engine.py:503-580 | the first half goes on exactly for an authentic unused capability and a verified transaction on the head whose project, base, commands, graph, preview, report and subject the claims name |
| KernelEffects.TicketExactly | backend/design_kernel/engine.py:548-580 | the revision built is the next one, of the staged graph, with the transaction's commands and report and the digest over them |
| KernelEffects.RetriesExactly | backend/design_kernel/engine.py:518-540 | a committed transaction is answered exactly for the capability it used, and only if that fits it |
| KernelEffects.CommitRefusalsExactly | backend/design_kernel/engine.py:515-557 | for each error of a commit whose capability is authentic, exactly when it is raised |
| KernelEffects.FinishExactly | backend/design_kernel/engine.py:581-595 | the second half publishes exactly when the consumption succeeds, and what it then changes |
| KernelRuns.StartOk | backend/design_kernel/engine.py:224-250 | a new kernel satisfies the run invariant |
| KernelRuns.StartFromOk | backend/design_kernel/engine.py:252-288 | so does a fork from an exact revision |
| KernelRuns.BeginKeeps | backend/design_kernel/engine.py:302-325 | beginning a transaction keeps the run invariant |
| KernelRuns.StageKeeps | backend/design_kernel/engine.py:348-383 | staging keeps it: the staged graph is the fold of the commands from the base graph and the preview digest covers it |
| KernelRuns.StageBatchKeeps | backend/design_kernel/engine.py:385-455 | so does a batch |
| KernelRuns.VerifyKeeps | backend/design_kernel/engine.py:463-501 | recording evidence keeps it: a verified transaction's evidence binds its current preview |
| KernelRuns.RollbackKeeps | backend/design_kernel/engine.py:709-724 | so does rolling back |
| KernelRuns.CommitKeeps | backend/design_kernel/engine.py:503-595 | committing keeps it, whatever others do to the authority between its halves: revisions stay one linear chain that the commit extends at the head |
| KernelRuns.FinishKeeps | backend/design_kernel/engine.py:581-595 | the second half alone keeps it: a revision built before the capability was consumed still extends the chain |
| KernelRuns.RefusedCommitChangesNothing | backend/design_kernel/engine.py:503-595 | a refused commit, and a repeated one, leave the kernel as it was |
| KernelRuns.RetryReturnsSameRevision | backend/design_kernel/engine.py:518-540 | repeating a commit with its capability returns the same revision and changes nothing, with any calls of others on the authority between verifying and consuming |
| KernelObject.DesignKernel.Create | backend/design_kernel/engine.py:224-250 | building a kernel object succeeds exactly when the canonical graph is valid |
| KernelObject.DesignKernel.FromRevision | backend/design_kernel/engine.py:252-288 | forking keeps the exact revision or refuses it |
| KernelObject.DesignKernel.BeginTransaction | backend/design_kernel/engine.py:302-325 | the object's new state and answer are those of the value function |
| KernelObject.DesignKernel.StageOne | backend/design_kernel/engine.py:348-383 | as above, for one command |
| KernelObject.DesignKernel.StageAll | backend/design_kernel/engine.py:385-455 | as above, for the batch loop over local values |
| KernelObject.DesignKernel.RecordVerification | backend/design_kernel/engine.py:463-501 | as above, for evidence |
| KernelObject.DesignKernel.CheckCommit | backend/design_kernel/engine.py:503-580 | the first half verifies, checks every binding and builds the revision; the kernel stays as it is |
| KernelObject.DesignKernel.FinishCommit | backend/design_kernel/engine.py:581-595 | the second half consumes in whatever state the authority then is, and publishes only if that succeeded |
| KernelObject.DesignKernel.CommitTransaction | backend/design_kernel/engine.py:503-595 | both halves with arbitrary calls of others on the authority in between have the effect of the value function and keep the invariant |
| KernelObject.DesignKernel.RollBack | backend/design_kernel/engine.py:709-724 | as above, for rollback |
| Authority.RunKeepsSound | backend/design_kernel/commit_authority.py:654-962 | every run keeps the authority sound, its tables only grow and its time never runs back |
| Authority.ConsumeIsSafe | backend/design_kernel/commit_authority.py:692-773 | whatever happened before, a capability is consumed only while the approval recorded at issue is registered, after issue, before both expiries, within 30 seconds and with an unused nonce |
| Authority.ConsumedOnce | backend/design_kernel/commit_authority.py:692-718 | a consumed nonce stays consumed and never succeeds again |
| Authority.SeenNeverRegistersAgain | backend/design_kernel/commit_authority.py:810-840 | an approval ID that was ever registered or revoked is never registered again |
| Authority.RevokedNeverUsed | backend/design_kernel/commit_authority.py:834-840 | after revocation no capability resting on the approval is verified or consumed |
| Authority.TimeNeverDecreases | backend/design_kernel/commit_authority.py:654-668 | of any two successful calls of a run the later one saw no earlier time |
| Authority.RegisterExactly | backend/design_kernel/commit_authority.py:810-832 | when an approval is registered, and what changes |
| Authority.RevokeExactly | backend/design_kernel/commit_authority.py:834-840 | when an approval is revoked, and what changes |
| Authority.IssueExactly | backend/design_kernel/commit_authority.py:842-962 | in reachable states a request is granted exactly when its approval is registered, unexpired and covers its base and preview, its lifetime is within (0, 30 s] and it has commands; the claims are then the request's and the approval's own |
| Authority.IssuedClaimsAreCovered | backend/design_kernel/commit_authority.py:842-962 | over every run each issued digest comes from one issue call, with that request's project, base, head, transaction, commands, preview, graph and nonce, and the subject and preview the approval covers |
| Authority.VerifySucceedsExactly | backend/design_kernel/commit_authority.py:720-773 | verification succeeds exactly for a genuine capability in its window that rests on the approval it was issued from |
| Authority.ConsumeSucceedsExactly | backend/design_kernel/commit_authority.py:692-718 | consumption succeeds exactly for such a capability with an unused nonce, and records that use alone |
| Authority.RollbackPoisons | backend/design_kernel/commit_authority.py:654-668 | after one backward reading every later call fails and changes nothing |
| Authority.CommitAuthority.RegisterReleaseApproval | backend/design_kernel/commit_authority.py:810-832 | the object does what the value function says |
| Authority.CommitAuthority.RevokeReleaseApproval | backend/design_kernel/commit_authority.py:834-840 | as above |
| Authority.CommitAuthority.IssueCapability | backend/design_kernel/commit_authority.py:842-962 | as above |
| Authority.CommitAuthority.VerifyCapability | backend/design_kernel/commit_authority.py:686-690 | as above |
| Authority.CommitAuthority.ConsumeCapability | backend/design_kernel/commit_authority.py:692-718 | as above |
| SharedAuthority.EveryRunIsOk | backend/design_kernel/engine.py:503-595 | in every run of any number of kernels on one authority, with verify and consume of a commit as separate steps, every kernel satisfies its invariant and nonces pay for commits one to one |
| SharedAuthority.CommittedIffPaid | backend/design_kernel/engine.py:576-595 | a transaction is committed exactly when it holds a consumed capability issued for it |
| SharedAuthority.CommitIsCovered | backend/design_kernel/engine.py:597-707 | in every reachable system the claims a commit was paid with are its own project, base, head, commands, graph, preview, report and release subject, and its revision records the same |
| SharedAuthority.NonceHasOneCommit | backend/design_kernel/commit_authority.py:692-718 | every consumed nonce belongs to exactly one committed transaction of exactly one kernel |
| SharedAuthority.RaceHasOneWinner | backend/design_kernel/commit_authority.py:692-718 | of commits that were all verified for one nonce, once one publishes every other is refused at its second half and changes nothing |
| CommittedHistory.CommittedForGood | backend/design_kernel/engine.py:503-595 | revisions and committed transactions never change in any run |
| CommittedHistory.LateRetryReturnsSameRevision | backend/design_kernel/engine.py:518-540 | however late, a repeat of a commit is answered by its first half: with the revision it created, or with a refusal |
| CommittedHistory.UncontestedCommit | backend/design_kernel/engine.py:503-595 | a ready commit that is finished in time is committed: head, transaction, revision and nonce say so, and no other kernel changes |
| Diff.ComputeDiff | backend/design_kernel/engine.py:740-793 | the three label lists are ascending and name exactly the objects added, removed and modified |
| Diff.ListedOnce | backend/design_kernel/engine.py:746-785 | every changed object is listed under its own status and no other |
| Diff.Disjoint | backend/design_kernel/engine.py:746-785 | no label is in two lists |
| Diff.LabelsDiffer | backend/design_kernel/engine.py:771-785 | a label names one object of one kind |
| Diff.LabelTexts | backend/design_kernel/engine.py:746-785 | the prefixes as they are written |
| Diff.ReportedExactly | backend/design_kernel/engine.py:771-780 | on the objects themselves: added if only staged, removed if only in the base, modified if in both and different |
| Diff.EmptyDiffExactly | backend/design_kernel/engine.py:740-793 | nothing is listed exactly when the two valid canonical graphs are equal |
| Diff.PreviewTransaction | backend/design_kernel/engine.py:740-793 | the whole diff record: the three lists, the base, graph and preview digests and the command IDs in order |
| Diff.PreviewIsExact | backend/design_kernel/engine.py:457-461 | for every transaction of every reachable kernel the lists are empty exactly when nothing changed, and the preview digest covers base, staged graph and commands |
| Import.CompileGraph | backend/canonical_import/mapper.py:1006-1211 | the appending loops, shared-land groups included, build the specified command list |
| Import.GroupExactly | backend/canonical_import/mapper.py:1095-1118 | the command of a shared-land group carries exactly the pads of the group, in the order of their IDs |
| Import.ReplayCommands | backend/canonical_import/model.py:937-960 | the replay loop stops at the first invalid or ineffective command and otherwise returns the fold |
| Parts.PartialValid | backend/canonical_import/mapper.py:1006-1211 | every grounded part of a valid graph is valid |
| RoundTrip.CompileReplayRoundTrip | backend/canonical_import/mapper.py:1006-1211 | replaying the compiled commands from the empty graph reaches the graph through valid, effective steps exactly when it is valid, canonical, on the default layers and unfilled |
| ImportStaging.TransactionInput | backend/canonical_import/mapper.py:1214-1240 | the command list carries the payloads in order and is a well-shaped batch |
| ImportStaging.CompiledGraphStages | backend/design_kernel/engine.py:385-455 | staging the compiled batch on the empty graph stages exactly the graph, under the same condition |
| Namespace.ProvenNoConnects | backend/canonical_import/_semantics.py:68-123 | a net is classed no-connect exactly when it has pads, is unrouted and every pad is an explicitly unconnected pin with KiCad's automatic name |
| Namespace.ReadSchematic | backend/canonical_import/_semantics.py:138-194 | the schematic loop reports nothing exactly when every net is named, bound, labelled and alone on its aliases |
| Namespace.ResolveNamespace | backend/canonical_import/_semantics.py:126-244 | no issue is reported exactly when the namespace is clean, and then the mappings are exactly its pairs |
| Namespace.NamespaceBijection | backend/canonical_import/_semantics.py:126-244 | in a clean namespace kept PCB nets and schematic nets correspond one to one |
| Namespace.RoutedIsKept | backend/canonical_import/_semantics.py:91-97 | a net with copper is never classed no-connect |
| Namespace.LookupsAlwaysDefined | backend/canonical_import/mapper.py:288-348 | no dictionary lookup of the logical board fails |
| Namespace.ConnectivityKept | backend/canonical_import/mapper.py:298-302 | two raw nets map to one logical net exactly when they are one kept raw net |
| Namespace.LogicalBoardHasSchematicNets | backend/canonical_import/mapper.py:317-328 | the logical board exists and its nets are exactly the schematic's |
| Namespace.LogicalBoardShows | backend/canonical_import/mapper.py:288-348 | the board built shows every segment, via, zone, footprint and kept pad in order on the one schematic net its own raw net maps to, and net and zone names are names of that net |
| Namespace.BuiltConnectivity | backend/canonical_import/mapper.py:288-348 | two objects of the built board share a net exactly when they shared a kept raw net |
| Namespace.AliasesExactly | backend/canonical_import/_semantics.py:41-65 | which raw names a schematic net answers to |
| Namespace.OpenPinsExactly | backend/canonical_import/_semantics.py:73-79 | the expected open pins are those on no-connect marks |
| Ledger.AppendedIntact | backend/import_approval/ledger.py:409-480 | appending keeps the sealed chain and its head row intact |
| Ledger.ChainExactly | backend/import_approval/ledger.py:303-336 | the rows a load accepts: numbered from one, each over the digest of the row before it, sealed, and in the order of their times |
| Ledger.AnchoredHistoryCannotBeRewritten | backend/import_approval/ledger.py:537-565 | an anchor that names a prefix of the chain names a prefix of another sealed chain exactly when that prefix is the same events |
| Ledger.ApprovalLedger.Load | backend/import_approval/ledger.py:303-336 | load accepts exactly an intact database that the anchor names a prefix of; any other intact one poisons |
| Ledger.ApprovalLedger.ConfirmVerifiedLoad | backend/import_approval/ledger.py:338-368 | confirm succeeds exactly when the head is still the loaded one, the anchor names a prefix and is, or is answered to be, at that head; a swap that fails or is not heard poisons |
| Ledger.ApprovalLedger.Append | backend/import_approval/ledger.py:370-481 | append does everything; or nothing; or commits the event while the swap fails or is not heard, which poisons the ledger |
| Ledger.ApprovalLedger.RequireRecoverableAnchor | backend/import_approval/ledger.py:537-565 | the check accepts exactly anchors that name a prefix |
| Ledger.ApprovalLedger.Advance | backend/import_approval/ledger.py:567-591 | the register moves exactly when it held the expected anchor, and the call succeeds exactly when it answers with the replacement; anything else poisons |
| LedgerRuns.StepKeeps | backend/import_approval/ledger.py:303-591 | every step of every client keeps the protocol invariant |
| LedgerRuns.AnchorAlwaysSafe | backend/import_approval/ledger.py:303-591 | in every interleaving with crashes the anchor names an exact prefix, lags by at most one event and never moves back |
| LedgerRuns.AnchoredForGood | backend/import_approval/ledger.py:338-368 | a head that a confirm or append reported stays at or before the anchor for good |
| LedgerRuns.ShorterDatabaseRefused | backend/import_approval/ledger.py:504-565 | a sealed database shorter than its anchor is dead: in no run is anything loaded, confirmed or appended, and neither database nor anchor moves |
| LedgerRuns.ReplacedDatabaseNoticed | backend/import_approval/ledger.py:537-565 | a sealed database put in place of the true one is accepted exactly when it keeps every anchored event |
| LedgerRuns.RestartRecovers | backend/import_approval/ledger.py:512-535 | from any reachable state a restarted client left alone brings the anchor up to the head |
| LedgerRuns.AppendAlone | backend/import_approval/ledger.py:370-481 | the steps of an uninterrupted append have the effect promised by the object, its half-done outcome included |
| LedgerRuns.FirstAppendLands | backend/import_approval/ledger.py:370-481 | on a new ledger the first client's append is stored and anchored |
| ApprovalRuns.ReplayedMemoryOk | backend/import_approval/contract.py:2058-2131 | any sealed chain that replays rebuilds consistent records, subjects, operations and fences |
| ApprovalRuns.PlanLands | backend/import_approval/contract.py:228-898 | every event any operation writes passes the checks of persisting and the stricter checks of replay |
| ApprovalRuns.ActKeeps | backend/import_approval/contract.py:2216-2250 | after an operation, complete or cut short, replay rebuilds exactly the memory its updates built |
| ApprovalRuns.EveryRunReplays | backend/import_approval/contract.py:2058-2131 | every run of operations and crashes writes a history that replays |
| ApprovalEffects.RequestExactly | backend/import_approval/contract.py:228-430 | when a request is answered, opened or refused, and exactly what it writes |
| ApprovalEffects.DecideExactly | backend/import_approval/contract.py:432-561 | when a decision is answered, stored or refused; the stored approval is the call's own decision, principal, reason and time |
| ApprovalEffects.AuthorizeExactly | backend/import_approval/contract.py:563-676 | when staging is authorized, and the authorization written |
| ApprovalEffects.ValidateExactly | backend/import_approval/contract.py:678-781 | validation answers exactly the recorded authorization of an unexpired, unfenced request |
| ApprovalEffects.InvalidateExactly | backend/import_approval/contract.py:810-898 | when a lifecycle is invalidated, and what is stored |
| ApprovalEffects.StatusExactly | backend/import_approval/contract.py:796-808 | the status is the record; an overdue one is stored and answered as expired |
| ApprovalEffects.ExpireExactly | backend/import_approval/contract.py:2293-2306 | exactly the overdue unfinished lifecycles expire, with their evidence kept |
| ApprovalEffects.ReplayAcceptsExactly | backend/import_approval/contract.py:2058-2214 | on every memory replay can build, some operation writes a snapshot if and only if replay accepts it and the rejection fence is open to it |
| ApprovalEffects.EventExactly | backend/import_approval/contract.py:2064-2116 | an event is replayed exactly if its metadata repeats its accepted snapshot, and how the four maps change |
| ApprovalObject.ReplayRows | backend/import_approval/contract.py:2064-2116 | the replay loop computes the fold and fails where the fold fails |
| ApprovalObject.ApprovalContract.Reload | backend/import_approval/contract.py:2058-2131 | reload succeeds exactly on a healthy, intact, replayable ledger whose anchor can be read and confirmed; then the fields hold the fold and the anchor is at the head |
| ApprovalObject.ApprovalContract.Persist | backend/import_approval/contract.py:2216-2250 | persist appends the snapshot and updates the four maps, keeping them equal to the fold; if the anchor fails after the event was committed, the maps are not updated |
| ApprovalObject.ApprovalContract.Perform | backend/import_approval/contract.py:228-898 | whatever the anchor does, the ledger ends as after the operation cut short somewhere; success means all of it is in the ledger, anchored and in the fields; with an anchor that answers, an operation that may start gives its planned answer |
| ApprovalFences.RunEvolves | backend/import_approval/contract.py:2134-2173 | over every run evidence, operation keys and fences persist and finished lifecycles never change |
| ApprovalFences.OneLivePerSubjectOneRejectionPerFence | backend/import_approval/contract.py:413-420 | at most one unexpired request per subject and one rejected request per fence, in every reachable history |
| ApprovalFences.FenceBlocksExactly | backend/import_approval/contract.py:1906-1917 | behind a rejection a guarded call about another request succeeds exactly as an answer recorded before, and writes nothing |
| ApprovalFences.RejectionHoldsForGood | backend/import_approval/contract.py:405-430 | the fence is held for good and blocks all later runs in that way |
| ApprovalFences.RetrySucceedsBehindFence | backend/import_approval/contract.py:385-402 | a concrete run in which a repeated request succeeds after the rejection |
| ApprovalClients.PlannedLands | backend/import_approval/contract.py:2216-2250 | the next event of an operation planned on a replayed history passes the checks of persisting and replay on what is then the history |
| ApprovalClients.EveryInterleavingReplays | backend/import_approval/ledger.py:370-481 | in every interleaving of contracts that append what they planned on the head they replayed, with crashes, lost races and lost replies, the history stays intact and replays |
| ApprovalClients.RejectionHoldsAcrossClients | backend/import_approval/contract.py:1906-1917 | a rejection fence holds and blocks in the same way across interleaved clients |
| Codec.EncodeThenDecode | backend/import_approval/serialization.py:66-170 | an encodable value is read back exactly when no plain dictionary in it has a reserved key set |
| Codec.DecodeThenEncode | backend/import_approval/serialization.py:66-170 | every accepted tree is the encoding of the value it decodes to |
| Codec.AtomForms | backend/import_approval/serialization.py:66-82 | the written form of values without parts, tags included |
| Codec.TupleForm | backend/import_approval/serialization.py:83-84 | the written form of tuples |
| Codec.InstanceForm | backend/import_approval/serialization.py:85-93 | the written form of records |
| Codec.DictForm | backend/import_approval/serialization.py:94-95 | the written form of plain dictionaries |
| TaskDag.ValidateTaskDag | backend/agent_runtime/schema.py:220-247 | accepts exactly when dependencies are known, no task lists itself and no chain returns; the finishing order has dependencies first |
| TaskDag.Visitor.Visit | backend/agent_runtime/schema.py:235-244 | a visit finishes the task and all it depends on, or there is a cycle |
| TaskDag.UniqueMeansAcyclic | backend/agent_runtime/schema.py:334-337 | with unique task IDs the self-dependency check adds nothing to acyclicity |

## Left out

- Text and range checks of constructors: ID syntax, NFC and UTF-8 checks, blank layer names and the 64-bit range of integers are not modelled; identifiers and names are arbitrary strings.
- JSON payload decoding in `_apply`: payloads are typed records, so a missing or surplus key has no counterpart; the defaults a constructor fills in are modelled.
- Verified zone fills beyond their binding to the zone's geometry, and `bind_verified_zone_fill`.
- Order of error kinds inside one pass of `validate_graph`: every rule and its verdict are modelled, but holes and junctions are checked in two loops where the source uses one.
- Validation.ValidateGraph: reports acceptance only, not which of several broken rules the source would name first.
- Diff.ComputeDiff: covers the three label lists; the copied digests and command IDs are in `Diff.PreviewTransaction`.
- ImportStaging.TransactionInput: that command IDs and keys of different positions differ is a hypothesis (the source keeps 24 hex digits of a digest for the ID), and the digest over the command list is not modelled.
- Thread locks, SQLite schema, PRAGMAs, triggers and file handling: a database write transaction is one atomic step.
- Ledger seals of the request, approval and authorisation inside a record: the seal of the event covers the whole record.
- Field-by-field evidence comparison of an approval, the principal, authority and source providers: their verdicts are inputs of an operation, and the material a request binds is one subject value.
- ApprovalObject.ApprovalContract.Perform: other clients do not act during the call; their interleavings are the runs of `ApprovalClients`.
- Codec.EncodeThenDecode: the canonical text form of trees and timestamps is a parameter; record constructors are taken to keep their fields.
- TaskDag.Visitor.Visit: the interpreter's recursion limit is not modelled.
- Namespace.ResolveNamespace: the final sorting of mappings and issues, and the entity names and texts of issues, are not modelled.
- `to_design_graph`, `import_project_bundle` and the KiCad parsers and writers.
- `backend/canonical_import/evidence_store.py`, `backend/design_kernel/adapter.py`, the product configuration, campaign service, component catalog, provider and host code: field copying, closed schemas, and network, file and process plumbing without rules of their own.
