# A model of panopticon-manager

panopticon-manager is a set of small transactional state machines over SQLite tables. Every request runs as
one `BEGIN IMMEDIATE` transaction, so a request is one atomic step: it either changes the tables as described
or leaves them as they were. This project models seven of those machines and proves what their code is for,
over every input, every reachable state and every run.

Each machine is written twice. A state value with step functions says what a request means; runs are sequences
of steps, and the theorems about runs are lemmas over them. A class with the tables as fields then does what
the code does, row by row and loop by loop (sweeps with their `LIMIT`, counters kept by triggers, searches,
rollbacks), and every method is proved equal to the step it implements and to keep the invariant.

| files | machine |
|---|---|
| `Transfers`, `TransferInvariants`, `TransferRuns`, `TransferReplies`, `TransferService` | resumable artifact transfer and the quota allocator it shares with one-shot upload |
| `AuditChain`, `AuditWriters`, `AuditCheckpoints` | hash-chained audit ledger, its verification against the source tables, and checkpoints |
| `Lifecycle`, `LifecycleInvariants`, `LifecycleEffects`, `LifecycleOutcomes`, `LifecycleRuns`, `LifecycleExclusion`, `LifecycleExamples`, `LifecycleService` | commands, response actions and triage runs |
| `LinuxStreams` | acknowledgement and gap accounting of Linux record streams |
| `Projection` | generation-ordered endpoint projections |
| `Keys`, `SignedTransfers` | signing-key history, rotation, and keys together with transfers |
| `Freshness` | capture age from one-use challenges |
| `Worker` | claim sharing, the claim and process cycle, and crash recovery of the detection worker |
| `Encoding` | the length-prefixed encodings that are signed or hashed |
| `Aggregates` | SQL aggregates, `ORDER BY` and bulk updates over maps, and other things several machines use |

SHA-256 and canonical JSON are parameters, assumed injective (and parsing assumed to invert writing) only where
a lemma says so. Signatures, bindings and live policy are answers that a request carries. Instants are integers,
with one clock reading per request.

## Where the code does not meet the plain property

Each of these keeps the code as it is, and states exactly when the property holds.

- An accepted checkpoint pins every hashed field of history, but not the spelling of the payload text: the hash
  reads the parsed payload. The checkpointed rows are a prefix letter for letter exactly when the current rows in
  their place have the spelling that the writers give them (`AuditCheckpoints.TextPinnedExactly`,
  `AuditCheckpoints.BuiltTextPinnedExactly`).
- Folding a command's audit events gives its state after a request exactly when the request does not report a
  result under an id that a result already holds: such a result is audited as received and not recorded
  (`LifecycleRuns.FoldExactly`). It holds in every run that does not report two commands' results under one id
  (`LifecycleRuns.RunFolds`), and `LifecycleExamples.ReusedResultIdMisleads` is a run that does.
- A directly enqueued command may take an id that starts with `resp-`. It is then the only kind of response command
  without an approval (`LifecycleExclusion.StrayExactly`), and the busy query of triage does not see it. A request
  breaks the rule of one command in flight per triage run exactly when a poll selects an item beside such a command
  of a sibling, or a new run takes in two of them that are already in flight (`LifecycleExclusion.ExclusionExactly`).
  The rule holds in every run in which no direct command takes the response id of a triage item
  (`LifecycleExclusion.RunExclusive`); `LifecycleExamples.DirectRespEscapesExclusion` is a run in which one does.
  Every other result about commands, actions and triage holds for all ids.
- Stale claims are reverted only on startup and only past the lease, so the recovery that the comment in
  `manager/detection/worker.py` calls free is conditional: after a restart every row ends done or failed exactly
  when no claim was younger than the lease (`Worker.RecoveryExactly`); a younger one stays claimed until another
  restart (`Worker.YoungClaimStuck`), and `Worker.QuickRestartStrands` is such a run.
- A process reference without a boot id is encoded like one whose boot id is `unknown` or empty. Identities are
  distinct in every other case (`Encoding.IdentityExactly`), and in all cases for boot ids of the schema's form
  (`Encoding.SchemaBootsDistinct`).
- The 100 ms clock guard is exact: reported ages cover true ages in all runs if and only if the two clocks
  together lag by at most the guard (`Freshness.GuardIsExact`).

## Model

| member | source | states |
|---|---|---|
| `Aggregates.SumOfSet` | manager/migrations.py:707-720 | changing one row moves a table sum by exactly that row's contribution, which is what the triggers add and subtract |
| `Aggregates.Aggregate` | manager/artifact_transfers.py:125-149 | a pass over the rows computes the sum, in whatever order the rows come |
| `Aggregates.SumOfCounts` | manager/artifact_transfers.py:125-149 | counting rows under a condition gives the size of the set of matching keys |
| `Aggregates.OrderBy` | manager/artifact_transfers.py:70-80 | an ordered query returns each row of the set once, by key |
| `TransferInvariants.RunInv` | manager/artifact_transfers.py:125-211 | every state reachable by any mix of admit, chunk, complete, expiry, readmission and one-shot upload keeps all budgets at once, the frame structure of every session, and the link between sessions and artifacts |
| `TransferInvariants.ReservationIsGuarantee` | manager/artifact_transfers.py:302-321 | within budget, releasing an open session's reservation always makes room for its bytes, whatever others reserved meanwhile |
| `TransferInvariants.ReserveKeepsBudget` | manager/artifact_transfers.py:125-149 | a reservation that passes the test keeps the global, agent and command budgets |
| `TransferInvariants.RetainKeepsBudget` | manager/response_artifacts.py:164-186 | evidence that passes the test keeps the same budgets |
| `TransferInvariants.AdmitInv` | manager/artifact_transfers.py:152-211 | admission, resumption and readmission keep the invariant, refused or not |
| `TransferInvariants.PutChunkInv` | manager/artifact_transfers.py:232-275 | a chunk request keeps the invariant |
| `TransferInvariants.PutChunkFrames` | manager/artifact_transfers.py:259-267 | an accepted frame extends the gap-free run of frames by exactly one, of forced length |
| `TransferInvariants.CompleteInv` | manager/artifact_transfers.py:278-329 | completion keeps the invariant, refused or not |
| `TransferInvariants.RetainSignedInv` | manager/response_artifacts.py:223-297 | one-shot retention keeps the invariant |
| `TransferInvariants.ExpireInv` | manager/artifact_transfers.py:70-105 | a sweep keeps the invariant |
| `TransferInvariants.HandleInv` | manager/artifact_transfers.py:152-329 | every request, with the sweep that follows a refusal, keeps the invariant |
| `TransferInvariants.AssembledLength` | manager/artifact_transfers.py:304-310 | the first n stored frames concatenate to exactly the bytes below the n-th boundary |
| `TransferRuns.CompleteNeverExhausted` | manager/artifact_transfers.py:302-321 | completing never fails a budget check |
| `TransferRuns.NeverUnavailable` | manager/artifact_transfers.py:297-301 | the "retention is unavailable" branches are unreachable |
| `TransferRuns.CompleteExactly` | manager/artifact_transfers.py:278-329 | a fully received live session completes if and only if its bytes have the promised digest and form; then exactly they are retained, the session is complete and its chunks are gone; otherwise nothing changes |
| `TransferRuns.AssembledIsFile` | manager/artifact_transfers.py:304-310 | the frames of a fully received session of a client that slices a file assemble to the file |
| `TransferRuns.RetainedIsFile` | manager/artifact_transfers.py:232-329 | over every run with retries, out-of-order sends, resumes and restarts, what is retained for the artifact is exactly the file |
| `TransferRuns.ChunkAcceptedExactly` | manager/artifact_transfers.py:232-275 | exactly which chunks a live or completed session takes: retries equal to the file's slice, new frames only at the durable offset |
| `TransferRuns.SendAll` | manager/artifact_transfers.py:232-275 | with frames sent in any order and among any requests about other artifacts, exactly those sent in their turn are placed |
| `TransferRuns.ResumeCompletes` | manager/artifact_transfers.py:232-329 | from any prefix already received, once the remaining frames were sent in turn before expiry, completing succeeds and retains exactly the file |
| `TransferRuns.AdmitOpens` | manager/artifact_transfers.py:152-211 | an admission that fits the budgets, new or after expiry, opens a session at offset 0 with the full lifetime |
| `TransferRuns.FreshTransferDelivers` | manager/artifact_transfers.py:152-329 | admit or readmit, place every frame, complete: exactly the file is retained |
| `TransferRuns.SendsPlace` | manager/artifact_transfers.py:232-275 | sending the frames of a file in order, once each, places them all |
| `TransferReplies.ProgressIsTrue` | manager/artifact_transfers.py:152-275 | whatever request is answered with progress, the answer is the durable offset (the stored chunks are exactly the frames below it) with the stored expiry, or the size of the retained artifact |
| `TransferReplies.ResumeAnswered` | manager/artifact_transfers.py:163-166 | readmission of a live session is answered if and only if its key verifies as of its admission, and changes neither the session nor its chunks |
| `TransferReplies.ToldClientDelivers` | manager/artifact_transfers.py:152-329 | a client that sends the file's frames from the offset it was told, by whatever request, delivers the file |
| `TransferReplies.ReceiptMeansRetained` | manager/artifact_transfers.py:278-329 | a receipt means that the artifact is retained with the attested digest, size and manifest; for an upload, as uploaded |
| `TransferReplies.CompletionRepeats` | manager/artifact_transfers.py:297-301 | completing a completed session gives the same receipt and changes nothing, with the key verified as of the admission and the first retention |
| `TransferReplies.UploadRepeats` | manager/response_artifacts.py:223-297 | uploading retained evidence again changes nothing and is answered if and only if the key verifies as of the first retention |
| `TransferReplies.UploadExactly` | manager/response_artifacts.py:146-297 | a one-shot upload of new evidence succeeds if and only if it decodes, fits and no session is open for it; then exactly it is retained |
| `TransferReplies.ReserveExactly` | manager/artifact_transfers.py:125-149 | a reservation is admitted if and only if every budget holds with it |
| `TransferReplies.RetainExactly` | manager/response_artifacts.py:164-186 | evidence fits if and only if every budget holds with it |
| `TransferReplies.ServedExactly` | manager/artifact_transfers.py:214-229 | which requests a session serves: its owner's, bound, under its key as of its admission, while it is open and unexpired or complete |
| `TransferReplies.ExpiredUnusable` | manager/artifact_transfers.py:214-229 | at its expiry a session takes no chunk and no completion, is expired and has no chunks |
| `TransferReplies.BindingRefuses` | manager/response_artifacts.py:112-133 | a refused binding refuses every request |
| `TransferReplies.MetadataRefuses` | manager/response_artifacts.py:223-297 | refused metadata leaves the evidence as it is and earns no receipt |
| `TransferReplies.ChunkReasons` | manager/artifact_transfers.py:214-262 | an unknown or foreign session is not found, a wrong frame or digest is unprocessable, any other refused frame conflicts |
| `TransferReplies.BudgetReasons` | manager/artifact_transfers.py:125-149 | a budget that does not hold is the reason when nothing else stands against the request |
| `TransferReplies.ManifestBound` | manager/artifact_transfers.py:157-160 | a session admits only its own manifest |
| `TransferReplies.DigestRefuses` | manager/artifact_transfers.py:233-235 | a chunk without its declared digest is refused |
| `TransferReplies.EvidenceKept` | manager/migrations.py:582-589 | retained evidence never changes, in any run |
| `TransferService.Database.constructor` | manager/migrations.py:670-723 | migration starts with counters equal to the sums over the evidence |
| `TransferService.Database.WriteSession` | manager/migrations.py:707-720 | the transfer triggers keep reserved bytes, open and total sessions equal to the sums over the rows |
| `TransferService.Database.InsertArtifact` | manager/migrations.py:573-575 | the artifact trigger keeps retained bytes and count equal to the sums |
| `TransferService.Database.DueRows` | manager/artifact_transfers.py:70-80 | the limited query returns distinct due sessions, earliest first, and all of them unless it is full |
| `TransferService.LimitCoversDue` | manager/artifact_transfers.py:70-80 | with at most 128 open sessions the limited query misses no due session |
| `TransferService.Database.ExpireDue` | manager/artifact_transfers.py:70-105 | one limited pass is the complete sweep and leaves no due open session |
| `TransferService.Database.Reserve` | manager/artifact_transfers.py:125-149 | the test on counters and two queries decides exactly the budgets over the true sums |
| `TransferService.Database.Fits` | manager/response_artifacts.py:164-186 | the test of retention on counters and queries decides exactly the budgets over the true sums |
| `TransferService.Database.ReadChunks` | manager/artifact_transfers.py:304-310 | reading chunks by offset yields the assembled content |
| `TransferService.FramesInOrder` | manager/artifact_transfers.py:304-310 | the sorted offsets of a full session are exactly 0, 64K, 128K, ... |
| `TransferService.Database.RetainEvidence` | manager/response_artifacts.py:146-297 | retention in place is the specified step, and keeps the counters |
| `TransferService.Database.Upload` | manager/response_artifacts.py:223-297 | one-shot upload in place is the specified step and keeps the invariant |
| `TransferService.Database.AdmitTransfer` | manager/artifact_transfers.py:152-211 | admission in place is the specified step and keeps the invariant |
| `TransferService.Database.ReceiveChunk` | manager/artifact_transfers.py:232-275 | a chunk request in place is the specified step and keeps the invariant |
| `TransferService.Database.Load` | manager/artifact_transfers.py:214-229 | which refusal, if any, an owned session meets |
| `TransferService.Database.CompleteSession` | manager/artifact_transfers.py:278-329 | completion in place is the specified step and keeps the invariant |
| `TransferService.Database.ReleaseAndRetain` | manager/artifact_transfers.py:311-321 | the reservation is released before retention, and a failed retention rolls the release back |
| `AuditChain.Verify` | manager/audit_chain.py:305-366 | the loop accepts exactly the ledgers whose every row is chained and repeats its source row and whose counts match the sources, and reports their true summary; every accepted row has the identity, event, actor, time and content of a source row |
| `AuditChain.VerifiedIsBijection` | manager/audit_chain.py:305-366 | if verification accepts, ledger rows and source rows correspond one to one |
| `AuditChain.AlteredColumnRefused` | manager/audit_chain.py:339-345 | a ledger that alters the identity, event, actor or time of a row of a verified one does not verify, whatever hashes are recomputed |
| `AuditWriters.GuardExactly` | manager/audit_chain.py:222-229 | the guard accepts exactly the unlabelled rows that continue the chain |
| `AuditChain.SourceRowCovered` | manager/audit_chain.py:305-366 | unique identities and equal counts leave no source row without a ledger row |
| `AuditChain.CoveredKeysCount` | manager/audit_chain.py:305-366 | the ledger rows of a source repeat as many different source rows as there are |
| `AuditWriters.InsertKeeps` | manager/audit_chain.py:177-229 | a source insert with its chain trigger keeps verification, only appends, and passes the guard trigger |
| `AuditWriters.InsertExactly` | manager/audit_chain.py:177-221 | a source row is written with its ledger row if and only if its table exists, its key is new and no ledger row has its identity; else nothing changes |
| `AuditWriters.SourceCreated` | manager/audit_chain.py:63-101 | a new source table starts empty beside the others |
| `AuditWriters.NewRowOk` | manager/audit_chain.py:267-302 | the row append writes is the next chained row and repeats its source row |
| `AuditWriters.WritesKeep` | manager/audit_chain.py:177-229 | any sequence of inserts and new source tables keeps verification and the legacy prefix |
| `AuditWriters.ImportVerifies` | manager/audit_chain.py:152-175 | the ledger imported by the migration verifies |
| `AuditWriters.BuiltLedgerVerifies` | manager/audit_chain.py:152-229 | import followed by any writes verifies, the legacy rows being exactly an initial prefix |
| `AuditWriters.SummaryCountsImports` | manager/audit_chain.py:347-366 | the summary counts exactly the imported rows as legacy |
| `AuditCheckpoints.VerifyCheckpoint` | manager/audit_chain.py:413-448 | accepts exactly authentic anchors of this ledger whose hash stands at their sequence in a verified ledger, and never another ledger's |
| `AuditCheckpoints.ChainPinned` | manager/audit_chain.py:50-53 | with an injective hash, equal hashes at one position force the same events up to it |
| `AuditCheckpoints.CheckpointPinsHistory` | manager/audit_chain.py:413-448 | an accepted checkpoint means that the ledger it was taken of is, event for event, a prefix of the current one |
| `AuditCheckpoints.ContinuationAccepted` | manager/audit_chain.py:369-448 | every append-only continuation still verifies against the anchor |
| `AuditCheckpoints.TextPinnedExactly` | manager/audit_chain.py:305-448 | with an accepted checkpoint of rows in written form, the checkpointed rows are a prefix letter for letter if and only if the current rows in their place are in written form |
| `AuditCheckpoints.BuiltTextPinnedExactly` | manager/audit_chain.py:152-448 | the same for every ledger that import and writes can build, whose rows are always in written form |
| `AuditCheckpoints.AllTextPinnedExactly` | manager/audit_chain.py:305-366 | checkpoints pin the text of all ledgers if and only if no payload has two spellings |
| `AuditWriters.Ledger.constructor` | manager/audit_chain.py:152-175 | the migration's import loop builds a verified ledger |
| `AuditWriters.Ledger.Record` | manager/audit_chain.py:177-229 | a source row and its chain row are written together or not at all, and verification is kept |
| `LifecycleInvariants.StepGood` | manager/routers/commands.py:52-455 | every request, with any command id, keeps the invariant, the history, and one open action per host, kind and target |
| `LifecycleInvariants.PollGood` | manager/routers/commands.py:196-290 | polling keeps the invariant, the history, and one open action per host, kind and target |
| `LifecycleInvariants.SelectSendable` | manager/auto_triage.py:227-242 | in any row order, single or durable, a poll selects at most one command per run and none of a busy or cancelled run |
| `LifecycleInvariants.AcceptGood` | manager/routers/commands.py:297-345 | acceptance keeps the invariant, the history, and one open action per host, kind and target |
| `LifecycleInvariants.SubmitGood` | manager/routers/commands.py:355-455 | a result keeps the invariant, the history, and one open action per host, kind and target; a command gets a result row exactly with its outcome, never two |
| `LifecycleInvariants.AlertGood` | manager/detection/response.py:198-324 | staging from a new alert keeps the invariant, the history, and one open action per host, kind and target |
| `LifecycleInvariants.RequestGood` | manager/routers/response_actions.py:363-418 | an analyst's request keeps the invariant, the history, and one open action per host, kind and target |
| `LifecycleInvariants.AuthorizeGood` | manager/detection/response.py:327-430 | authorization keeps the invariant, the history, and one open action per host, kind and target; an approved action has its own command |
| `LifecycleInvariants.RejectGood` | manager/routers/response_actions.py:572-591 | rejection keeps the invariant, the history, and one open action per host, kind and target |
| `LifecycleInvariants.CancelGood` | manager/auto_triage.py:245-263 | cancelling a queued command keeps the invariant, the history, and one open action per host, kind and target |
| `LifecycleInvariants.StartGood` | manager/auto_triage.py:86-153 | starting a triage run keeps the invariant, the history, and one open action per host, kind and target |
| `LifecycleInvariants.CancelRunGood` | manager/auto_triage.py:266-288 | cancelling a run keeps the invariant, the history, and one open action per host, kind and target |
| `LifecycleInvariants.ReconcileGood` | manager/auto_triage.py:202-224 | reconciliation keeps the invariant, the history, and one open action per host, kind and target |
| `LifecycleEffects.PollHandsOut` | manager/routers/commands.py:240-286 | a poll grants only unexpired, unblocked rows of its query to their own agent, hands out every queued row outside triage (with durable delivery every dispatched one too), keeps the first delivery time, and leaves nothing live past its expiry |
| `LifecycleEffects.RequestAlone` | manager/routers/response_actions.py:386-405 | a staged request is alone: no equivalent action is open for its agent or on its host |
| `LifecycleEffects.CancelRunWithdraws` | manager/auto_triage.py:266-288 | cancelling a run withdraws every item not yet dispatched, except exactly the queued commands without an approval, and touches nothing else |
| `LifecycleEffects.ReconcileWithdraws` | manager/auto_triage.py:202-224 | reconciliation withdraws the unfit items, of the polling agent's runs or of all, except exactly the queued commands without an approval, and no others |
| `LifecycleEffects.ReadsSweep` | manager/routers/response_actions.py:246-256 | reading the queue leaves nothing live past its expiry and nothing undecided past its time |
| `LifecycleOutcomes.AcceptanceMoves` | manager/routers/commands.py:336-344 | the agent's own running command, not blocked, is accepted, with one event when it was dispatched |
| `LifecycleOutcomes.AcceptanceRefuses` | manager/routers/commands.py:318-335 | a blocked item, or a collection that is not running, is refused with one event and no move |
| `LifecycleOutcomes.AcceptedOnce` | manager/routers/commands.py:240-286 | in every run an accepted or finished command is never handed out or accepted again |
| `LifecycleOutcomes.ForeignCommandRefused` | manager/routers/commands.py:364-370 | an acceptance or result for another agent's command changes nothing |
| `LifecycleOutcomes.ResultRecorded` | manager/routers/commands.py:431-455 | the first result of a running command is its outcome, with its row, its receipt and one event |
| `LifecycleOutcomes.LateResultRefused` | manager/routers/commands.py:371-383 | an invalid result, or one of the first schema after the expiry, changes nothing |
| `LifecycleOutcomes.LateResultIgnored` | manager/routers/commands.py:417-430 | a result for a command not in flight is only audited |
| `LifecycleOutcomes.ReceiptBinds` | manager/routers/commands.py:384-405 | a result id received for another submission is refused |
| `LifecycleOutcomes.ReceiptsKept` | manager/routers/commands.py:384-405 | no receipt ever changes, in any run |
| `LifecycleOutcomes.EnqueueExactly` | manager/routers/commands.py:52-160 | a new direct command is queued for its agent if and only if it is allowed and unexpired |
| `LifecycleOutcomes.AuthorizeExactly` | manager/detection/response.py:327-430 | an undecided action is approved if and only if it is fresh, has an agent and nothing stands against it, and then its command is queued for that agent until the deadline; it is declined if and only if it never can be; else nothing changes |
| `LifecycleOutcomes.RejectExactly` | manager/routers/response_actions.py:572-591 | a rejection declines exactly a fresh undecided action |
| `LifecycleOutcomes.CancelExactly` | manager/auto_triage.py:245-263 | a cancellation cancels exactly an unexpired queued command, with one event |
| `LifecycleOutcomes.AlertExactly` | manager/detection/response.py:198-324 | an alert leaves its action declined when refused or a duplicate, else undecided, or with auto approved if and only if nothing stands against it |
| `LifecycleOutcomes.RequestExactly` | manager/routers/response_actions.py:363-418 | a request is staged if and only if it is valid, for its alert's host, and no equivalent action of its agent or on its host is open |
| `LifecycleOutcomes.StartExactly` | manager/auto_triage.py:86-153 | a run starts if and only if all its items can join; then every item is staged, the automatic ones approved with their commands; else nothing changes |
| `LifecycleOutcomes.RunServed` | manager/auto_triage.py:227-242 | a poll serves every run that has an eligible, unblocked row and no other command in flight |
| `LifecycleRuns.Reachable` | manager/routers/commands.py:173-455 | in every reachable state deliveries agree with phases, results with outcomes, and every approved action has its command |
| `LifecycleRuns.RunHistory` | manager/auto_triage.py:156-191 | along every run terminal commands never change, decided actions keep their decision, and no item of a cancelled run is authorized, dispatched, redelivered or accepted again |
| `LifecycleRuns.CancelledNeverDelivered` | manager/auto_triage.py:245-263 | a cancelled command was and will be never delivered |
| `LifecycleRuns.RunOneOpen` | manager/detection/response.py:167-195 | with a clock that never goes back, at most one action of detection or analyst origin is open for the same host, kind and target |
| `LifecycleRuns.ClosedStaysClosed` | manager/detection/response.py:63-81 | a closed action never reopens |
| `LifecycleRuns.FoldExactly` | manager/routers/commands.py:417-455 | a request keeps the fold of each command's events equal to its phase if and only if it reports no result under a taken result id |
| `LifecycleRuns.RunFolds` | manager/routers/commands.py:417-455 | in every run that reports no two commands' results under one id, the events of every command fold to its phase |
| `LifecycleExclusion.StrayExactly` | manager/routers/commands.py:52-160 | a request creates a response command without an approval if and only if it enqueues a direct command under that response id |
| `LifecycleExclusion.ApprovedExactly` | manager/detection/response.py:327-430 | in every run an action is approved if and only if its command exists, unless a direct command took its id |
| `LifecycleExclusion.CancelledCreatedExactly` | manager/auto_triage.py:156-191 | an item of a cancelled run gets a command if and only if a direct command takes its id |
| `LifecycleExclusion.SendExclusiveExactly` | manager/auto_triage.py:227-242 | sending what was selected leaves at most one command of a run in flight if and only if no selected item has an unapproved sibling in flight |
| `LifecycleExclusion.StartExclusiveExactly` | manager/auto_triage.py:86-153 | starting a run leaves at most one of its commands in flight if and only if no two of its items join with commands in flight |
| `LifecycleExclusion.ExclusionExactly` | manager/auto_triage.py:227-242 | a request keeps the rule of one command in flight per run if and only if it is neither of these |
| `LifecycleExclusion.RunExclusive` | manager/auto_triage.py:227-242 | at every point of every run in which no direct command takes the response id of a triage item, at most one command of a triage run is dispatched or accepted |
| `LifecycleExamples.DirectRespEscapesExclusion` | manager/auto_triage.py:227-242 | a run in which such a command leaves two commands of one triage run in flight |
| `LifecycleExamples.ReusedResultIdMisleads` | manager/routers/commands.py:417-455 | a run in which two commands' results under one id leave a command whose events do not fold to its phase |
| `LifecycleService.Service.ExpireCommands` | manager/routers/commands.py:173-192 | the sweep expires and audits exactly the stale live commands |
| `LifecycleService.Service.ExpireActions` | manager/detection/response.py:63-81 | the sweep lapses exactly the undecided actions |
| `LifecycleService.Service.ExpirePending` | manager/routers/response_actions.py:246-256 | both sweeps before a read in place are the specified step and keep the invariant |
| `LifecycleService.Service.RetireItems` | manager/auto_triage.py:202-224 | undecided items are declined, queued commands cancelled, the rest untouched |
| `LifecycleService.Service.SelectRows` | manager/routers/commands.py:256-275 | the filter loop selects what the specification selects |
| `LifecycleService.Service.PollCommands` | manager/routers/commands.py:196-290 | polling in place is the specified step and keeps the invariant |
| `LifecycleService.Service.AcceptCommand` | manager/routers/commands.py:297-345 | acceptance in place is the specified step; it succeeds exactly for an own command that is not blocked and, if it collects, ends accepted |
| `LifecycleService.Service.SubmitResult` | manager/routers/commands.py:355-455 | a result in place is the specified step; a refusal changes nothing |
| `LifecycleService.Service.FindOpenDuplicate` | manager/detection/response.py:167-195 | the search finds an open action for the same work if and only if there is one |
| `LifecycleService.Service.FindAgentDuplicate` | manager/routers/response_actions.py:386-410 | the search by agent finds an undecided or unfinished equivalent if and only if there is one |
| `LifecycleService.Service.AlertCreated` | manager/detection/response.py:198-324 | staging from an alert in place is the specified step and keeps the invariant |
| `LifecycleService.Service.StageManualRequest` | manager/routers/response_actions.py:363-418 | staging by an analyst in place is the specified step; success means a new action |
| `LifecycleService.Service.ApproveAction` | manager/detection/response.py:327-430 | authorization in place, or no change when it raises |
| `LifecycleService.Service.AuthorizeAction` | manager/routers/response_actions.py:539-555 | the authorize request in place is the specified step; a refusal changes nothing |
| `LifecycleService.Service.RejectAction` | manager/routers/response_actions.py:572-591 | rejection in place is the specified step; success leaves the action declined |
| `LifecycleService.Service.CancelQueued` | manager/auto_triage.py:245-263 | cancellation in place is the specified step; success means the command is cancelled |
| `LifecycleService.Service.EnqueueCommand` | manager/routers/commands.py:52-160 | a direct command in place is the specified step; an existing id is never overwritten |
| `LifecycleService.Service.StartTriage` | manager/auto_triage.py:86-153 | the item loop of a run is the specified step; one item that cannot be authorized undoes it all |
| `LifecycleService.Service.CancelTriage` | manager/auto_triage.py:266-288 | cancelling a run in place is the specified step; success leaves the run cancelled |
| `LifecycleService.Service.ReconcileAll` | manager/auto_triage.py:202-224 | reconciliation of all runs in place is the specified step |
| `LinuxStreams.Store.MissingRanges` | manager/linux_endpoint_store.py:57-68 | the ranges are the maximal gaps above the acknowledgement, sorted and apart, all of them or the first 16 |
| `LinuxStreams.Store.ExtendRun` | manager/linux_endpoint_store.py:117-156 | the loop ends at the end of the longest gap-free run |
| `LinuxStreams.Store.Advance` | manager/linux_endpoint_store.py:117-156 | incremental accounting equals recomputation from the stored set, also when a lower start arrives late |
| `LinuxStreams.Store.Ingest` | manager/linux_endpoint_store.py:159-203 | after every batch each stream's row is the recomputation, and counters, conflicts and summaries are those of the batch |
| `LinuxStreams.Store.InsertAll` | manager/linux_endpoint_store.py:159-195 | the insertion loop classifies each record against what was stored before it |
| `LinuxStreams.SummaryUnique` | manager/linux_endpoint_store.py:117-156 | a stored set has exactly one summary |
| `LinuxStreams.RangesAgree` | manager/linux_endpoint_store.py:57-68 | a set and an acknowledgement determine every reported range |
| `LinuxStreams.VerdictAfter` | manager/linux_endpoint_store.py:159-195 | after a batch, what it took is stored as is and what it refused still conflicts |
| `LinuxStreams.TouchedRight` | manager/linux_endpoint_store.py:159-203 | the touched streams include every stream whose set grew, each once |
| `LinuxStreams.TakenExactly` | manager/linux_endpoint_store.py:168-192 | a record ends up stored if and only if it was, or its id and its slot were both free; nothing else changes |
| `LinuxStreams.FreshAllStored` | manager/linux_endpoint_store.py:159-195 | a batch of new ids in free slots is stored and accepted completely |
| `LinuxStreams.FreshNumbers` | manager/linux_endpoint_store.py:159-195 | and each stream's set grows by exactly the batch's numbers for it |
| `LinuxStreams.GapsFilled` | manager/linux_endpoint_store.py:57-68 | a sensor that sends the reported missing numbers, fewer than 16 ranges, is acknowledged through the highest with nothing missing |
| `LinuxStreams.CountsConserved` | manager/linux_endpoint_store.py:159-203 | every record is accepted, duplicate or conflicting, exactly once |
| `LinuxStreams.ResendIsIdempotent` | manager/linux_endpoint_store.py:159-203 | resending changes no record, accepts nothing, and reports the same conflicts and streams |
| `LinuxStreams.LinesPartitioned` | manager/routers/linux_endpoint.py:67-121 | each line is valid or invalid, once, with its number |
| `LinuxStreams.RepliesCountOnce` | manager/routers/linux_endpoint.py:69-155 | accepted, duplicates and rejected lines account for every line once |
| `LinuxStreams.Answer` | manager/routers/linux_endpoint.py:69-155 | an answered batch counts every line exactly once and its reply is determined by the tables and the lines; a refused one changes nothing |
| `LinuxStreams.ResendReply` | manager/routers/linux_endpoint.py:121-155 | the reply to a resent batch has the same rejections and summaries, and only duplicates |
| `LinuxStreams.SendTwice` | manager/routers/linux_endpoint.py:69-155 | a sensor that sends a batch again gets the same acknowledgement, and the records that the first send left stay as they are |
| `Projection.ProjectionsMoveForward` | manager/endpoint_state.py:50-91 | an ordered projection is only ever replaced by a later ordered one |
| `Projection.StepAccepts` | manager/endpoint_state.py:10-47 | a fork-free record is never refused |
| `Projection.FeedReflects` | manager/endpoint_state.py:10-91 | after any order of fork-free records the tables reflect exactly their set |
| `Projection.CurrentIsBest` | manager/endpoint_state.py:94-111 | a projection is "current" exactly when it is the highest-sequence record of the active generation in its category and kind |
| `Projection.ArrivalOrderIrrelevant` | manager/endpoint_state.py:10-111 | any two arrivals of the same ordered records end with the same active stream and the same current projections |
| `Projection.AcceptedExactly` | manager/endpoint_state.py:10-30 | records are all accepted, in any order, if and only if no id names two records and no generation of an installation has two epochs |
| `Projection.ActiveIsHighest` | manager/endpoint_state.py:31-47 | with any installations, the active stream is the highest generation of the installation of the first ordered record |
| `Projection.UnorderedExactly` | manager/endpoint_state.py:58-63 | an unordered projecting record is shown if and only if no ordered record arrived before |
| `Projection.LabelsExact` | manager/endpoint_state.py:94-111 | what each label says of a shown projection |
| `Projection.ShownKinds` | manager/endpoint_state.py:50-52 | health and state records are shown, and no other kind ever is |
| `Projection.ForeignIgnored` | manager/endpoint_state.py:64-70 | a record of another installation changes neither the active stream nor a projection |
| `Projection.Endpoint.Observe` | manager/endpoint_state.py:10-47 | observing a generation in place, or a fork reported with nothing changed |
| `Projection.Endpoint.Project` | manager/endpoint_state.py:50-91 | projecting in place |
| `Projection.Endpoint.Receive` | manager/routers/endpoint.py:117-154 | one record of a batch in place is the specified step |
| `Keys.RunInv` | manager/artifact_keys.py:96-242 | for every run versions are exactly 1..n, all below n are retired, at most one key is active, and pending rotations name new keys |
| `Keys.UnmarkedIsLast` | manager/artifact_keys.py:68-75 | the only unretired key is the last version |
| `Keys.ApprovalNeverCollides` | manager/artifact_keys.py:169-213 | approval meets no key, version or active-key collision |
| `Keys.ApproveInv` | manager/artifact_keys.py:169-213 | approval keeps the invariant |
| `Keys.SuccessorVersioned` | manager/artifact_keys.py:169-213 | retiring the last version and adding its successor keeps versions 1..n |
| `Keys.RotateInv` | manager/artifact_keys.py:96-166 | a rotation request keeps the invariant |
| `Keys.StatusNeverMovesBack` | manager/migrations.py:618-647 | along every run no key is lost or renamed and no status moves back |
| `Keys.CompromiseMarks` | manager/routers/artifact_keys.py:138-154 | the first decision on a known key of an enrolled agent marks that key and no other |
| `Keys.DecisionOnce` | manager/routers/artifact_keys.py:121-137 | a decision that was taken changes nothing when it comes again |
| `Keys.DecisionsKept` | manager/routers/artifact_keys.py:121-137 | no recorded decision changes, in any run |
| `Keys.CompromiseLocksOut` | manager/artifact_keys.py:216-242 | from then on the key is denied in every run, for every host, admission time and signature |
| `Keys.RevokeLocksOut` | manager/routers/artifact_keys.py:155-165 | the first revocation retires every key and denies all keys of the agent from then on |
| `Keys.EnrollExactly` | manager/migrations.py:625-636 | an agent is enrolled if and only if that is allowed and it is not yet, with its first key as version 1 |
| `Keys.EnrollmentSigns` | manager/migrations.py:625-636 | an enrolled first key is current and may sign |
| `Keys.RotationStoredExactly` | manager/artifact_keys.py:96-166 | a new rotation request is stored if and only if it is proven, names the current key and an unseen one, and its nonce is issued, unused and unexpired |
| `Keys.NonceIssuedOnce` | manager/auth.py:47-63 | an issued nonce is never reissued or renewed |
| `Keys.RequestApprovable` | manager/artifact_keys.py:169-183 | a stored request can be approved exactly until its nonce expires |
| `Keys.ApprovalHandsOver` | manager/artifact_keys.py:184-213 | after approval the new key is current and signs; the old one signs exactly for what was admitted until then |
| `Keys.OneRotationPerNonce` | manager/artifact_keys.py:96-166 | in every run no two stored rotation requests were proven with the same nonce |
| `Keys.Registry.Current` | manager/artifact_keys.py:68-75 | the query returns the current key if and only if there is one |
| `Keys.Registry.RequestRotation` | manager/artifact_keys.py:96-166 | a request in place is the specified step; a retry is answered from its record |
| `Keys.Registry.ApproveRotation` | manager/artifact_keys.py:169-213 | approval in place is the specified step |
| `Keys.Registry.EnrollAgent` | manager/migrations.py:626-636 | an enrollment in place, with a first key or without one |
| `Keys.Registry.IssueNonce` | manager/auth.py:47-63 | a nonce is issued once |
| `Keys.Registry.Decide` | manager/routers/artifact_keys.py:121-178 | compromise or revocation in place is the specified step, decided once per actor and request |
| `SignedTransfers.OpenOnlyByAdmission` | manager/artifact_transfers.py:152-211 | a session is open after a request only if it was open before or an admission opened it under a key that may sign new work |
| `SignedTransfers.RunPunctual` | manager/artifact_keys.py:216-242 | over every run of transfers and key changes of all agents, no session is open under a key that retired before its admission |
| `SignedTransfers.OneRotationPerNonce` | manager/artifact_keys.py:117-142 | among all agents, no two stored rotation requests were proven with one nonce |
| `SignedTransfers.RetirementNeverStrands` | manager/artifact_keys.py:216-242 | retirement alone never stops a session in progress |
| `SignedTransfers.RetiredKeyOpensNothing` | manager/artifact_transfers.py:163-175 | a retired key opens no session and restarts no expired one |
| `SignedTransfers.UntrustedKeyRefused` | manager/artifact_keys.py:216-242 | with an unknown, foreign or compromised key, a revoked enrollment or a wrong signature every request is refused |
| `SignedTransfers.RunKeysLater` | manager/migrations.py:637-647 | whatever all agents do, no agent's keys or enrollment move back |
| `SignedTransfers.CompromiseStopsTransfers` | manager/routers/artifact_keys.py:138-154 | after the first decision to compromise a key, every request of its agent under it is refused, in every run |
| `SignedTransfers.RevocationStopsTransfers` | manager/routers/artifact_keys.py:155-165 | after the first revocation every request of the agent is refused, in every run |
| `Freshness.AgeIsBound` | manager/endpoint_freshness.py:117-193 | after any run, the reported age is at least the true one and exceeds it by less than the challenge lifetime, twice the guard and two roundings |
| `Freshness.FreshIsRecent` | manager/endpoint_freshness.py:171-193 | "fresh" means captured at most 90 s ago; captured recently enough, with an age, means "fresh" |
| `Freshness.GuardIsExact` | manager/endpoint_freshness.py:20-22 | ages cover true ages in all runs if and only if the clocks together lag by at most the guard |
| `Freshness.RowSound` | manager/endpoint_freshness.py:139-168 | a row written from a proof bounds the time from capture to receipt on both sides |
| `Freshness.StaleStaysStale` | manager/endpoint_freshness.py:171-193 | whatever happens in between, restarts included, reported ages never decrease and a stale record is never fresh again |
| `Freshness.EveryAgeStored` | manager/routers/endpoint.py:113-154 | an age exists only for a stored record, so its insertion is never ignored |
| `Freshness.OneProofPerChallenge` | manager/endpoint_freshness.py:67-136 | in every run no two committed batches hold a proof for the same nonce |
| `Freshness.ChallengeHonoured` | manager/endpoint_freshness.py:45-64 | a challenge is honoured exactly for its nonce and exactly for fifteen seconds, whatever other agents do |
| `Freshness.AgedAtOnce` | manager/endpoint_freshness.py:139-193 | a committed batch that answers its challenge in time gives every new record of its scope its age at once |
| `Freshness.AgedOnlyThen` | manager/endpoint_freshness.py:139-168 | and nothing else gets an age: only a record that matches the header of a batch that answered its challenge in time |
| `Freshness.UnverifiedThen` | manager/endpoint_freshness.py:171-187 | no age is reported without one, by another process, without a clock or for a time before the receipt |
| `Freshness.CommitExactly` | manager/routers/endpoint.py:113-160 | a batch commits if and only if its records agree with what is stored and among themselves and none forks; else nothing changes |
| `Freshness.Tables.IssueChallenge` | manager/endpoint_freshness.py:45-64 | issuing in place replaces the agent's challenge |
| `Freshness.Tables.Consume` | manager/endpoint_freshness.py:67-136 | consuming in place grants the specified proof and spends the challenge |
| `Freshness.Tables.RecordAge` | manager/endpoint_freshness.py:139-168 | an age is inserted exactly for a matching scope, clock and range, and never replaced |
| `Freshness.Tables.Receive` | manager/routers/endpoint.py:113-160 | a batch in place is the specified step; a collision or a fork restores everything, the challenge included |
| `Freshness.Tables.Report` | manager/endpoint_freshness.py:171-193 | the report in place |
| `Worker.Share` | manager/detection/worker.py:157-168 | the loop takes exactly min(256, offered) rows, max-min fairly, in round-robin levels |
| `Worker.FairIsMaxMin` | manager/detection/worker.py:157-168 | no other division of as many rows gives a queue more without taking from one that ends up with less than it |
| `Worker.SharesUnique` | manager/detection/worker.py:157-168 | round-robin levels and the number of rows determine the shares |
| `Worker.SharesOfWhole` | manager/detection/worker.py:131-168 | limiting each queue's query to one batch does not change the shares |
| `Worker.RunInv` | manager/detection/worker.py:98-326 | in every run the rows in hand are claimed and a row has one failed attempt exactly when it failed |
| `Worker.FinalStays` | manager/detection/worker.py:98-326 | a done or failed row never changes and no row is lost |
| `Worker.CycleResolves` | manager/detection/worker.py:200-240 | an uninterrupted cycle leaves every claimed row done or failed by its own verdict and touches no other row |
| `Worker.DrainExactly` | manager/detection/worker.py:269-274 | n cycles take exactly 256 waiting rows each until none is left |
| `Worker.RecoveryExactly` | manager/detection/worker.py:98-125 | after a restart all rows end done or failed if and only if no claim was younger than the lease |
| `Worker.YoungClaimStuck` | manager/detection/worker.py:98-125 | a younger claim stays as it is until another restart |
| `Worker.QuickRestartStrands` | manager/detection/worker.py:98-125 | a reachable row claimed half a minute before a restart stays claimed until another restart |
| `Worker.JoinClaims` | manager/detection/worker.py:157-169 | heads of the three queues in fair shares make up a batch |
| `Worker.Tables.Offer` | manager/detection/worker.py:131-155 | each query returns the head of its queue, at most one batch |
| `Worker.Tables.ClaimBatch` | manager/detection/worker.py:127-198 | claims a prefix of every queue, min(256, waiting) rows in all, fairly shared, and marks exactly them |
| `Worker.Tables.ProcessClaimed` | manager/detection/worker.py:200-240 | each claimed row gets its verdict, no other row changes |
| `Worker.Tables.MarkFailed` | manager/detection/worker.py:295-326 | one row fails and counts one attempt |
| `Worker.Tables.RunOnce` | manager/detection/worker.py:269-274 | one cycle reduces the waiting rows by exactly the number it reports; each changed row waited and is done when it was processed, else failed with one more attempt |
| `Worker.Tables.RevertStaleClaims` | manager/detection/worker.py:98-125 | exactly the claims past the lease wait again |
| `Encoding.FrameExactly` | manager/wire/endpoint.py:137-139 | a frame is read back exactly, whatever bytes it holds and whatever follows, and nothing else is read as one |
| `Encoding.DecodeExactly` | manager/wire/endpoint.py:137-139 | the decoder returns a list of fields if and only if the bytes are its encoding |
| `Encoding.EncodeInjective` | manager/wire/endpoint.py:137-139 | distinct field lists have distinct encodings |
| `Encoding.IdentityRead` | manager/wire/endpoint.py:116-139 | what a reader of the identity input finds, field by field |
| `Encoding.IdentityExactly` | manager/wire/endpoint.py:116-144 | two references share an identity input if and only if they agree, but for an absent boot and one spelled unknown or empty |
| `Encoding.SchemaBootsDistinct` | manager/wire/endpoint.py:116-144 | with boot ids of the schema's form, if and only if they agree |
| `Encoding.NamedExactly` | manager/artifact_keys.py:78-93 | the named encoding decodes to exactly its values |
| `Encoding.RotationInput` | manager/artifact_keys.py:78-93 | the loop writes an input that decodes to the eight fields of the request, each under its own name |
| `Encoding.RotationInjective` | manager/artifact_keys.py:78-93 | distinct rotation requests never share an input |
| `Encoding.DomainsDisjoint` | manager/artifact_keys.py:89-93 | a rotation input is never a process identity input |

## Left out

- HTTP framing, schema validation, header and body limits, tokens, roles and grants: each request is modelled after validation.
- SHA-256, ES256 signatures, base64, UTF-8 and JSON text: functions and predicates given as parameters.
- Timestamp strings: instants are integers, and a request reads the clock once.
- A storage quota that changes while the service runs: it is a constant of the run.
- Custody and security audit rows of transfers and keys: the ledger model covers their chaining, the machines do not write them.
- Worklist decoding of artifact content: one predicate of the bytes.
- Triage policy, target resolution, profile checks and action translation: answers that a request carries; triage budgets are not claimed.
- Campaigns, request-key replay and the separate-approver rule: single-branch checks around the modelled steps.
- The nonce check of an enrollment: an answer that the enrollment carries; a nonce it used up is not marked in the key machine.
- Public-key texts: keys are their ids.
- Linux health rows and process snapshots: easier members of the same transactions.
- Pruning of detection state and the detection engine: a verdict per row; a crash is a restart with the rows still in hand.
- Retention windows, incident folding, alert paging, the console and the native agents.
- Freshness.StaleStaysStale: takes clock readings of one process as non-decreasing and server epochs as never reused, since both come from the operating system.
- Freshness.OneProofPerChallenge: takes issued nonces as distinct, since they are 256 random bits.
