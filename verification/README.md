# Portmark, modelled and proved in Dafny

Portmark is an agent host: it admits signed agents, runs them step by step against a provider and a set of tools, and
keeps everything it must not forget in a database, an audit chain, a local floor file and a remote witness. Its hard
code is small and about surviving things: crashes between two writes, restored or cloned databases, interrupted side
effects, policy reloads, clock jumps, chunked streams, shutdown. This project models that code and proves what it keeps
over every run, not over chosen examples.

Digests are injective (a receipt or an event stands for its own hash) and signatures are ideal predicates. Whatever the
code reads from outside (clocks, the network, the store's answers, the provider, tools, operators) is a parameter, so
every theorem quantifies over it. Code that changes things in place is a class whose methods are proved equal to
specification functions; the theorems are then about those functions, over all runs.

| files | part of the system |
|---|---|
| `WitnessRules`, `WitnessChain`, `WitnessOrder`, `WitnessHistory` | the remote witness: the pending/confirmed chain, rebaseline, the log that rebuilds it |
| `HostSave`, `HostRuns`, `HostCopies` | the host's save against the witness and the local floor, with faults, restores and clones |
| `EffectLedger`, `EffectRuns` | the ledger of side-effecting calls and the reconcile leases |
| `Json`, `Constraints`, `Authority` | argument constraints and how grants, budgets, expiry and policies narrow |
| `Checkpoints`, `RunLoop`, `RunResults`, `RunEnds`, `RunHost` | one run: the step loop, its authority, its tool calls, how it ends |
| `AuditExport`, `ExportVerify`, `ExportRuns`, `Ocsf` | the audit export behind a cursor, its verifier, and the OCSF reshape |
| `TrustedClocks`, `TokenRefresh`, `TokenSchedule` | the trusted clock and the token renewal schedule |
| `ChunkedLines`, `StreamReaders`, `JsonDepth`, `Base64`, `Headers`, `MigrationIds`, `Projection` | readers, scanners, encodings, output projection |
| `RunProgress`, `Shutdown` | the shutdown fence |

`dafny verify dfyconfig.toml` checks everything.

Where the code and its own documentation disagree, the model follows the code:

- The tombstone of an over-budget task is described as never larger than the checkpoint that was admitted. It can be up
  to seven bytes larger than a checkpoint that fitted (`Checkpoints.TombstoneBound`, reached in `RunEnds.SevenIsReached`),
  and a task can be left open for want of them. `RunEnds.StrandsExactly` says which: under an unchanged policy some run
  of an admitted task is stranded exactly when the ceiling is below the size of the task's tombstone one save and one
  step on, saying `completed`.
- A tool that had started is described as left to the reconcile pass when its task is closed. That pass takes no
  `started` row, and only a later run of the same task makes one `unknown`; a closed task has no later run. So a call
  whose arguments are refused inside the invocation, or a crash after the launch was recorded and then a cancellation,
  leaves a row nobody can settle (`EffectRuns.ClosedOverStarted`); `EffectRuns.NothingStranded` says exactly which rows.
- A token too short to be kept usable is described as left to the politeness floor. The code never renews it at all
  (`TokenRefresh.RenewsExactly`).
- The slack is described as what makes a renewal finish before the worker refuses. A tick reads the clock once for all
  servers, so what it spends on other servers delays this one: `TokenSchedule.OthersMayTake` says exactly how much is
  harmless (nothing, for a server whose renewals are quick), and `NeighbourDelays` is the tick that is late.
- The refresher's own margin is described as wider than the worker's, but nothing holds it to that. With a narrower one
  a renewal at the deadline asks the server for nothing, because the token is still fresh by that margin, and is booked
  as a success; from then on the token counts as one that cannot be kept. `TokenSchedule.AheadMustCoverTheSlack` gives
  the margins for which this cannot happen, `TenAheadIsTooFew` an input. The default of 300 seconds is enough.
- `from_ocsf` is described as an exact inverse. It is, exactly for records that have no details or a string key to hang
  them on (`Ocsf.RoundTrip`); a record of neither kind is not one the exporter writes.
- The start-up verdict on a database's last receipt and the verdict on its next advance name the same fault except on a
  discarded receipt below the confirmed one, where start-up says rolled back and the advance says forked
  (`WitnessOrder.BootAgreesWithAdvance`).

## Model

| member | source | states |
|---|---|---|
| `WitnessChain.StepKeeps` | src/portmark/witness_server.py:395-442 | every request, well formed or not, keeps the chain invariant: confirmed and pending end the live chain, sequences are contiguous, the log rebuilds the tables |
| `WitnessChain.AdvanceKeeps` | src/portmark/remote_witness.py:369-449 | the same for one advance: replay, confirm, replace or refuse |
| `WitnessChain.RebaselineKeeps` | src/portmark/remote_witness.py:452-484 | the same for an operator's rebaseline |
| `WitnessChain.StepIssues` | src/portmark/witness_server.py:395-442 | a request changes nothing or issues exactly one receipt, one never issued before |
| `WitnessChain.NoReceiptTwice` | src/portmark/remote_witness.py:355-484 | over every run of requests from any number of copies no receipt is issued twice |
| `WitnessChain.OneChain` | src/portmark/remote_witness.py:355-484 | the receipts never discarded form one unbranched chain, with contiguous sequences inside an epoch and strictly growing ones across; the pending sequence is the confirmed one plus one |
| `WitnessChain.LogRebuildsState` | src/portmark/witness_server.py:286-308 | folding the append-only log gives back exactly the derived tables, in every reachable state |
| `WitnessChain.RefusedStaysRefused` | src/portmark/remote_witness.py:355-411 | a held receipt the witness does not name is never named again, whatever arrives later |
| `WitnessChain.UnnamedIsRefused` | src/portmark/remote_witness.py:355-411 | every advance on such a receipt is refused with the classification of its `prev` and changes nothing |
| `WitnessChain.ClonesDiverge` | src/portmark/remote_witness.py:369-449 | once an advance built on one receipt is accepted, every later advance built on a different held receipt is refused |
| `WitnessOrder.CheckHeadsExact` | src/portmark/remote_witness.py:391-401 | the head loop passes exactly when every offered head dominates the witnessed one |
| `WitnessOrder.AcceptedExactly` | src/portmark/remote_witness.py:369-411 | an advance is accepted if and only if it is no retry, names a named receipt, and extends the tables as that receipt leaves them |
| `WitnessOrder.OnlyRegistryLeft` | src/portmark/remote_witness.py:369-411 | with the right receipt, sequence and heads, only the registry can refuse |
| `WitnessOrder.IssuedShape` | src/portmark/remote_witness.py:414-449 | what the tables are after an answer that issued a receipt, retry or not |
| `WitnessOrder.RetryIsIdempotent` | src/portmark/remote_witness.py:378-380 | sending the pending advance again gives the same receipt and changes nothing |
| `WitnessOrder.AcceptedDominates` | src/portmark/remote_witness.py:391-449 | an accepted advance already dominates the confirmed tables it may later become |
| `WitnessOrder.NothingConfirmedGoesDown` | src/portmark/remote_witness.py:347-449 | between any two reachable states of one epoch no head, registry version or time floor falls, and equal numbers keep their hash or digest |
| `WitnessOrder.ConfirmationLands` | src/portmark/remote_witness.py:429-449 | a confirmation records exactly what the pending advance carried, and nothing else changes |
| `WitnessOrder.RebaselineCutsOff` | src/portmark/remote_witness.py:452-484 | an accepted rebaseline starts the next epoch from the operator's tables alone and cuts off every earlier receipt for good |
| `WitnessOrder.BootAgreesWithAdvance` | src/portmark/witness_binding.py:82-106 | a database with a receipt of this witness starts if and only if its next advance passes the `prev` rule; the two verdicts name the same fault except on a discarded receipt below the confirmed one |
| `WitnessHistory.StepKeepsHistory` | src/portmark/remote_witness.py:369-484 | every request keeps: each receipt of the current epoch was built on a confirmed one, and the confirmed heads are those the confirmed receipt and all it was built on carried |
| `WitnessHistory.NamedIsBuiltOn` | src/portmark/remote_witness.py:355-411 | both receipts the witness names were built on whatever any receipt of the epoch was built on |
| `WitnessHistory.HistoryIsLive` | src/portmark/remote_witness.py:369-449 | what a live receipt was built on is live and of its epoch |
| `HostSave.HostNode.Persist` | src/portmark/host.py:1737-1929 | the transactional save, with a fault anywhere, equals the specified step: floor check, staged writes, witness, floor, commit; without a commit the database is unchanged |
| `HostSave.HostNode.WriteTransaction` | src/portmark/host.py:1799-1851 | nonce, audit events and checkpoint are staged together or not at all |
| `HostSave.HostNode.AdvanceFloorAndCommit` | src/portmark/host.py:1899-1929 | the floor's time and head advance before the commit, and a failure leaves the database as it was |
| `HostRuns.HonestHostNeverAccused` | src/portmark/host.py:1767-1927 | after any saves with any faults, an unrestored host's receipt is the witness's confirmed or pending one, and its next save can be refused by the witness only for its registry |
| `HostRuns.CommitIsRecorded` | src/portmark/host.py:1767-1929 | for every database and floor: a commit has its head in the floor exactly, floors only rise, a failed save changes no chain |
| `HostRuns.FloorNeverBehind` | src/portmark/host.py:1779-1929 | the floor's head is never behind the committed chain, and at equal sequence it is the same hash |
| `HostRuns.FloorAheadRefuses` | src/portmark/witness.py:149-162 | with the floor ahead of the database on a task, every save of it is refused and changes nothing |
| `HostRuns.FloorOnlyRises` | src/portmark/witness.py:340-355 | through any saves of any databases beside one floor file, a recorded head never falls |
| `HostRuns.RestoredBehindFloorRefused` | src/portmark/host.py:1779-1791 | after a commit, any database with fewer events of that task is refused for as long as the floor file survives |
| `HostRuns.PastStaysLive` | src/portmark/host.py:1767-1927 | every receipt an unrestored host ever committed is still on the live chain |
| `HostRuns.RestoreVerdict` | src/portmark/remote_witness.py:355-389 | a database restored to an earlier save passes the `prev` rule if and only if its sequence is not below the confirmed one, and then at most one commit is lost; otherwise it is refused as rolled back |
| `HostCopies.AtMostOneCommitLost` | src/portmark/remote_witness.py:355-484 | over every history of saves, faults, restores, clones and recoveries, a database state that passes the `prev` rule was built on everything another state's last commit was built on, all of it live, if and only if that state is of the current epoch; its sequence is at most one behind that of any state |
| `HostCopies.OnlyTheLastCommitIsMissing` | src/portmark/witness_binding.py:144-201 | so it holds every event of every state of the epoch, except what that state's last commit added to one task |
| `HostCopies.NamedCopyNeverAccused` | src/portmark/witness_binding.py:144-160 | any copy, clone or restored backup that passes the `prev` rule holds every confirmed head, and its next save can be refused by the witness only for its registry |
| `HostCopies.RecoveryOfNamed` | src/portmark/witness_binding.py:162-201 | a recovery of a state that passes the rule loses no more than that state did |
| `HostCopies.RecoveryCanLoseAll` | src/portmark/witness_binding.py:162-201 | a recovery of another state can: for every number of commits, a history after which the state that passes the rule has none of them |
| `HostCopies.CommitCountsOne` | src/portmark/witness_binding.py:152-160 | a save that commits adds one to the witness sequence of its database, any other save nothing |
| `HostCopies.OneCommitCanBeLost` | src/portmark/remote_witness.py:369-411 | the bound is reached: an unconfirmed commit can be lost to a save from the state before it |
| `EffectLedger.EffectStore.RecordEffectPrepared` | src/portmark/storage.py:964-974 | records intent once; an existing row and all others are untouched |
| `EffectLedger.EffectStore.MarkEffectStarted` | src/portmark/storage.py:976-981 | only a prepared row becomes started |
| `EffectLedger.EffectStore.SettleEffect` | src/portmark/storage.py:983-990 | the unguarded settle of one row |
| `EffectLedger.EffectStore.ClaimEffect` | src/portmark/storage.py:992-1008 | a claim succeeds exactly on an unknown row or an expired lease, and sets the new claim and lease |
| `EffectLedger.EffectStore.RenewEffectClaim` | src/portmark/storage.py:1038-1047 | a renewal succeeds exactly for the owning claim |
| `EffectLedger.EffectStore.SettleEffectFromClaim` | src/portmark/storage.py:1010-1023 | a terminal settle succeeds exactly for the owning claim with a live lease |
| `EffectLedger.EffectStore.ReleaseEffectClaim` | src/portmark/storage.py:1025-1036 | a release needs the owning claim and returns the row to unknown |
| `EffectLedger.EffectStore.EffectPreLaunch` | src/portmark/host.py:1355-1411 | replay, refuse or proceed exactly as the row says; an interrupted launch becomes unknown; to proceed is to have the row started and bound |
| `EffectLedger.EffectStore.ReconcileEffect` | src/portmark/host.py:419-502 | the whole operator pass with any number of rivals before the renewal and while the reconcile function runs: when it is refused, when its claim is lost (and a rival's is intact), and what it settles otherwise |
| `EffectRuns.InvokedAtMostOnce` | src/portmark/host.py:919-1050 | over any runs, crashes anywhere and any reconciliations, the tool is invoked at most once per effect id, as its row is bound |
| `EffectRuns.ReplayIsTheRecordedResult` | src/portmark/host.py:1355-1411 | every replay was for the confirmed row's tool and arguments and gave what the invocation returned or a reconciler reported |
| `EffectRuns.TerminalIsForever` | src/portmark/host.py:437-502 | a confirmed or reconciled row never changes again, and a binding never changes |
| `EffectRuns.OnlyTheHolderSettles` | src/portmark/host.py:437-502 | whatever step takes a row out of reconciling is the sole holder's own, and only an expired lease lets another claim in |
| `EffectRuns.NothingStranded` | src/portmark/host.py:1355-1411 | from every reachable state with no run alive, a settled row can be reached, whichever way the reconciler answers, if and only if the task is open or its row is no longer `prepared` or `started` |
| `EffectRuns.ClosedOverStarted` | src/portmark/host.py:782-815 | arguments refused inside the invocation, or a crash and then a close, leave a `started` row that no later step settles |
| `EffectRuns.StuckStays` | src/portmark/host.py:437-502 | such a row, and what was launched, never changes again |
| `Json.JsonEqualTransitive` | src/portmark/security.py:1363-1379 | constraint equality of JSON values is transitive |
| `Json.JsonEqualSymmetric` | src/portmark/security.py:1363-1379 | and symmetric |
| `Json.JsonEqualReflexive` | src/portmark/security.py:1363-1379 | and reflexive |
| `Constraints.RuleNarrows` | src/portmark/security.py:1437-1482 | two rules under one key combine to one that admits no value either refuses, and exactly the common ones unless an entry of a type or URL list is lost |
| `Constraints.SpecNarrows` | src/portmark/security.py:1437-1482 | the same for a whole argument spec, presence included |
| `Constraints.NamesCombine` | src/portmark/security.py:1489-1556 | whatever keys the merge copies across, the combined whitelist of names is the intersection of the two |
| `Constraints.IntersectNarrows` | src/portmark/security.py:1489-1549 | the combined set admits no call that either set refuses, for all arguments |
| `Constraints.IntersectExact` | src/portmark/security.py:1489-1549 | where no list entry is lost it admits every call both admit |
| `Authority.ProjectionsExact` | src/portmark/security.py:1677-1688 | two projections share exactly the fields both share |
| `Authority.NarrowBelow` | src/portmark/host.py:162-169 | a narrowed permit is below both of its inputs: tools, calls, fields, budget, expiry |
| `Authority.CutBelow` | src/portmark/security.py:1778-1820 | what a policy leaves of a permit is below the permit, within the policy, and only what the manifest asked for |
| `Authority.ApprovalIsSticky` | src/portmark/host.py:134-159 | a tool needs approval if and only if some policy the run has been under asks for it |
| `Authority.MigrationNeedsAll` | src/portmark/host.py:134-159 | a migration is authorized if and only if every policy the run has been under authorizes it |
| `Checkpoints.SizeIsRenderedLength` | src/portmark/host.py:1538-1542 | the size used throughout is the length of the canonical encoding |
| `Checkpoints.TombstoneBound` | src/portmark/host.py:1544-1596 | a tombstone is at most seven bytes over the last running checkpoint that fitted, and its messages less than that |
| `Checkpoints.CompletionIsLargest` | src/portmark/host.py:1544-1596 | no tombstone within a step is larger than that of its completion |
| `RunResults.RecheckNarrows` | src/portmark/host.py:1194-1216 | an adopted reload is below what the run had and within the new and every earlier policy |
| `RunResults.AdmittedAuthOk` | src/portmark/host.py:106-132 | the admitted authority is below the permit, the ceiling of a migrated task, and the policy |
| `RunEnds.AuthorityOnlyNarrows` | src/portmark/host.py:721-863 | over any reloads, a run's authority stays below its permit, its ceiling, its admission and every policy seen |
| `RunEnds.ExecutionsAllowed` | src/portmark/host.py:877-1050 | every tool execution was within the admitted permit and its lifetime and allowed, arguments and approval included, by every policy seen |
| `RunEnds.HandoffsAllowed` | src/portmark/host.py:1079-1186 | a migration carries no more than the run had, by every policy's leave, and a migrated task never migrates on |
| `RunEnds.CallsBounded` | src/portmark/host.py:883-1060 | invocations plus replays never exceed the admitted tool-call budget less the starting count |
| `RunEnds.EveryRunEnds` | src/portmark/host.py:721-863 | whatever the environment answers, the run ends within a bound set by its step budget |
| `RunEnds.EndsClosedOrWaiting` | src/portmark/host.py:721-875 | a run that ends is closed, or open at a wait for input that fitted, or the wait was oversized, or the ceiling is less than seven bytes over a checkpoint that fitted |
| `RunEnds.SevenIsReached` | src/portmark/host.py:721-863 | an admitted run is stranded under a ceiling six bytes over its checkpoint |
| `RunEnds.StoredStatusIsMeant` | src/portmark/host.py:1064-1191 | the stored status of an ended run says what the provider decided: completed with its content or null, waiting only where asked or for an approval, ready only after a migration |
| `RunEnds.RoomForTombstone` | src/portmark/host.py:1544-1596 | over any turns and reloads, a refused closing save met a ceiling below the largest tombstone its admission can come to |
| `RunEnds.StrandsExactly` | src/portmark/host.py:721-875 | under an unchanged policy some run of an admitted task has its closing save refused if and only if the ceiling is below that tombstone: `completed` one save and one step on, or `failed` for a cancelled or exhausted task |
| `RunHost.TaskRun.Persist` | src/portmark/host.py:1737-1766 | the size check of a save: refused and nothing changed, or saved with the next generation |
| `RunHost.TaskRun.TerminalizeOverBudget` | src/portmark/host.py:1544-1596 | the collapse, step by step, equals the specified close |
| `RunHost.TaskRun.CloseTask` | src/portmark/host.py:862-875 | every closing exit: as it is when it fits, else the collapse |
| `RunHost.TaskRun.RecheckPolicy` | src/portmark/host.py:1194-1216 | adopts a changed policy or keeps the authority the run had |
| `RunHost.TaskRun.EndStep` | src/portmark/host.py:819-862 | the save at the end of a step, with cancellation, collapse and the oversized wait |
| `RunHost.TaskRun.Cancel` | src/portmark/host.py:1218-1235 | a cancelled task becomes a failure without its handoff |
| `RunHost.TaskRun.AskProvider` | src/portmark/host.py:721-762 | the loop test, the policy check and the provider call |
| `RunHost.TaskRun.ReadDecision` | src/portmark/host.py:762-815 | the cancellation read, the shape check and the second policy check, with the refusal that closes the task |
| `RunHost.TaskRun.ApplyDecision` | src/portmark/host.py:877-1191 | the expiry check and the branch of each kind of decision |
| `RunHost.TaskRun.PassGates` | src/portmark/host.py:882-906 | the tool branch up to the approval gate and the cancellation read after it |
| `RunHost.TaskRun.StartTool` | src/portmark/host.py:907-1063 | the last expiry checks, the ledger's answer, a replay within the current budget, or the call |
| `RunHost.TaskRun.InvokeTool` | src/portmark/host.py:974-1063 | the argument check and each outcome of the call: counted and recorded only when it gave a result |
| `RunHost.TaskRun.HandOff` | src/portmark/host.py:1079-1186 | a migration authorized before and after the preflight, under the narrowed authority |
| `RunHost.TaskRun.Execute` | src/portmark/host.py:721-875 | the loop terminates in the state its phases lead to |
| `AuditExport.Exporter.EmitRows` | src/portmark/audit_export.py:401-492 | emits exactly the rows that pass, in order, and moves the mark past them |
| `AuditExport.Exporter.ExportOne` | src/portmark/audit_export.py:465-500 | one task of a page, rollback and rewrite checks included |
| `AuditExport.Exporter.ExportAll` | src/portmark/audit_export.py:436-462 | the lines and cursor of a page, with a control record for each task that failed |
| `ExportVerify.ReadExport` | src/portmark/audit_export.py:535-576 | clean if and only if no line is bad and no key is claimed for two records; the records, one per key |
| `ExportVerify.VerifyTask` | src/portmark/audit_export.py:597-626 | a task is sound if and only if it is contiguous, linked and every head matches and verifies; proven if and only if it is covered and its heads were checked |
| `ExportVerify.VerifyRecords` | src/portmark/audit_export.py:579-628 | the verdict over the whole file |
| `ExportVerify.VerifyExport` | src/portmark/audit_export.py:535-628 | reading and verifying together |
| `ExportVerify.InvalidExactly` | src/portmark/audit_export.py:579-628 | the verdict is invalid if and only if the records do not bear each other out |
| `ExportVerify.ValidExactly` | src/portmark/audit_export.py:579-628 | the verdict is valid if and only if there are records and a registry, every event links down to 0 and is unique, every head is over an event and verifies, and every event is under a head |
| `ExportRuns.AssembleOk` | src/portmark/storage.py:502-535 | a page lists distinct tasks with a snapshot from the watermark, whole unless cut by the event budget |
| `ExportRuns.TaskKeeps` | src/portmark/audit_export.py:465-500 | exporting an intact snapshot never fails and keeps file, cursor and store in agreement |
| `ExportRuns.WatermarkCovered` | src/portmark/audit_export.py:416-462 | under any schedule of crashes the file holds every event below each saved watermark |
| `ExportRuns.KeyDetermines` | src/portmark/audit_export.py:283-318 | true records under one key are one record, events and heads alike |
| `ExportRuns.ExportNeverInvalid` | src/portmark/audit_export.py:416-628 | under any schedule of crashes the file reads back cleanly, is never judged invalid, and is valid exactly when it has records, a registry and a head over every event |
| `Ocsf.RoundTrip` | src/portmark/ocsf.py:137-209 | reading back gives the record if and only if it has no details or a string key |
| `Ocsf.HonestPasses` | src/portmark/ocsf.py:212-232 | every record as written passes the check on reading |
| `Ocsf.LoudExactlyOnFailure` | src/portmark/ocsf.py:79-113 | a record is more than informational if and only if it reports a failure; a head is a success if and only if its signature verified; anything that is neither event nor head is a high failure |
| `Ocsf.PassesExactly` | src/portmark/ocsf.py:212-274 | the check passes a record if and only if it is what the reshape writes of its native record for some version and clock, apart from a time that is not an integer |
| `Ocsf.ShownIsForced` | src/portmark/ocsf.py:137-274 | so status, severity, activity, type, class, a time of its own and the native record it carries are forced, labels exactly and numbers by value |
| `TrustedClocks.TrustedClock.constructor` | src/portmark/_clock.py:64-78 | the baseline at start-up |
| `TrustedClocks.TrustedClock.ChangeTolerance` | src/portmark/_clock.py:80-84 | a valid tolerance replaces the old one and the baseline stays |
| `TrustedClocks.TrustedClock.Now` | src/portmark/_clock.py:93-129 | when it answers, what it answers, and how the baseline and the sticky failure change |
| `TrustedClocks.AnswersHardlyFall` | src/portmark/_clock.py:93-129 | any later answer is at least any earlier one less twice the largest tolerance, through jumps and retuning |
| `TrustedClocks.TwiceIsReached` | src/portmark/_clock.py:93-129 | twice the tolerance is reached, for every tolerance |
| `TrustedClocks.RollbackIsSticky` | src/portmark/_clock.py:103-111 | once a rollback was seen no later call answers |
| `TrustedClocks.FloorHolds` | src/portmark/_clock.py:174-210 | after an accepted floor check every later answer is at least the floor less three tolerances |
| `TrustedClocks.ThriceIsReached` | src/portmark/_clock.py:174-210 | three tolerances are reached, for every tolerance |
| `TokenRefresh.RenewsExactly` | src/portmark/mcp.py:257-302 | a renewal begins if and only if the token can be maintained and the deadline, or margin and floor, say so |
| `TokenRefresh.FloorYieldsOnlyToDeadline` | src/portmark/mcp.py:257-302 | inside the least interval only the deadline makes a renewal begin |
| `TokenRefresh.TickIsFair` | src/portmark/mcp.py:333-362 | a tick gives every server the turn it would have had alone: renewed exactly when due, remembered the same, asked about again no later than it asked for |
| `TokenRefresh.RefusedIsLeftAlone` | src/portmark/mcp.py:373-386 | a refused authorization is offered by no tick and stays refused until the stored one changes |
| `TokenRefresh.UntouchedSoFar` | src/portmark/mcp.py:333-362 | the turns of other servers change nothing of a server's record |
| `TokenRefresh.TokenRefresher.Turn` | src/portmark/mcp.py:342-361 | one server's turn: unreadable, absent, refused for good, held back or renewed |
| `TokenRefresh.TokenRefresher.Renew` | src/portmark/mcp.py:388-450 | a token fresher than the margin asks nobody; a refusal is remembered, a failure retried, a success dated at its completion and followed by the wait its token asks for |
| `TokenRefresh.TokenRefresher.Tick` | src/portmark/mcp.py:333-362 | the loop equals the specified tick: the record of every server, the set renewed, and a wait of at least 5 seconds |
| `TokenSchedule.OthersMayTake` | src/portmark/mcp.py:333-362 | every server of a given renewal cost that a tick holds back is asked about again before its token is refused if and only if the tick spends at most the slack less five seconds on other servers |
| `TokenSchedule.NeighbourDelays` | src/portmark/mcp.py:333-362 | for every cost and every longer time, the tick over two servers whose next one is at or after the refusal |
| `TokenSchedule.AheadMustCoverTheSlack` | src/portmark/mcp_oauth.py:205-270 | every renewal that is due asks for a token if and only if the configured margin is at least the worker's and the slack |
| `TokenSchedule.EmptyRenewalIsTheLast` | src/portmark/mcp.py:388-450 | a renewal that asked nobody makes its token count as unmaintainable, and is the last |
| `TokenSchedule.TenAheadIsTooFew` | src/portmark/mcp.py:388-450 | a 75-second token with a margin of ten is such a case |
| `TokenSchedule.AfterHolding` | src/portmark/mcp.py:333-362 | a tick of any servers that holds one back leaves it as it was, and the next is before its token is refused |
| `TokenSchedule.AfterRenewing` | src/portmark/mcp.py:421-450 | after a renewal the next tick is before the new token is refused |
| `TokenSchedule.RenewalsBeginInTime` | src/portmark/mcp.py:257-450 | in every run of ticks over any servers, every token that can be kept has its renewal begin before the worker refuses it, and the server is asked if the margin covers the slack |
| `ChunkedLines.ChunksDoNotMatter` | src/portmark/mcp_http.py:362-407 | any reader no cap stopped did what a fold over the lines of the whole stream does, however it was cut |
| `ChunkedLines.CapsRespected` | src/portmark/mcp_http.py:362-407 | a stream within its caps is not stopped by one under any cut |
| `ChunkedLines.ReadAsWhole` | src/portmark/mcp_http.py:362-407 | so its outcome does not depend on the cut |
| `StreamReaders.ReadEvents` | src/portmark/mcp_http.py:362-418 | the event reader's nested loops equal the specified reading of the chunks |
| `StreamReaders.SameEvents` | src/portmark/mcp_http.py:362-418 | frames queued and the event reading stops at are those of the whole stream |
| `StreamReaders.StopsAtAnswer` | src/portmark/mcp_http.py:380-418 | the answer is the last frame queued and the only one that answers; no frame has a NUL byte or outgrows the cap |
| `StreamReaders.ReadLines` | src/portmark/mcp_client.py:110-135 | the pipe reader's loops equal the specified reading |
| `StreamReaders.SameLines` | src/portmark/mcp_client.py:110-135 | within the cap the queue is the non-blank lines of the whole stream |
| `JsonDepth.CheckDepth` | src/portmark/json_guard.py:60-82 | the scan refuses as the specified scan does |
| `JsonDepth.ScanQuoted` | src/portmark/json_guard.py:60-82 | a string literal counts for nothing, whatever it contains |
| `JsonDepth.RefusesExactly` | src/portmark/json_guard.py:60-82 | a JSON text is refused if and only if its nesting exceeds the cap |
| `JsonDepth.BeginningRefusesExactly` | src/portmark/json_guard.py:60-82 | wherever a JSON text breaks off, its beginning is refused if and only if it opens more than the cap, and then so is every text that begins with it |
| `JsonDepth.BracketsRefused` | src/portmark/json_guard.py:60-82 | a run of brackets longer than the cap is refused, whatever follows it |
| `JsonDepth.RejectDuplicateKeys` | src/portmark/json_guard.py:51-57 | the object, if and only if no key repeats |
| `Base64.UrlRoundTrip` | src/portmark/_encoding.py:16-41 | decoding undoes encoding for all bytes |
| `Base64.UrlCanonical` | src/portmark/_encoding.py:20-41 | a text decodes to some bytes if and only if it is their encoding |
| `Base64.LenientCollides` | src/portmark/_encoding.py:20-41 | without the comparison on the way back texts would collide, and which of them are accepted |
| `Headers.Utf8Inverts` | src/portmark/mcp_client.py:150-159 | the UTF-8 bytes of any text decode to it |
| `Headers.HeaderRoundTrip` | src/portmark/mcp_client.py:150-178 | every header value is safe to send and decodes to its text, those that look like the marker included |
| `Headers.HeaderInjective` | src/portmark/mcp_client.py:150-178 | no two texts share a header value |
| `MigrationIds.NamespacedInjective` | src/portmark/host.py:61-67 | no two pairs of source and task share a stored id |
| `Projection.ProjectToolMessages` | src/portmark/projection.py:145-159 | the message loop of the provider's view |
| `Projection.ProjectForMigration` | src/portmark/projection.py:109-123 | the message loop of a migration |
| `Projection.ObjectShown` | src/portmark/projection.py:162-169 | of an object exactly the shared fields remain, with their values |
| `Projection.ListShown` | src/portmark/projection.py:162-169 | of a list exactly its objects remain, in order, each as an object is shown |
| `Projection.OnlyGrantedShown` | src/portmark/projection.py:145-159 | every message shown is that of a granted tool, with content exactly when the grant shares something |
| `Projection.ProjectTwice` | src/portmark/projection.py:162-169 | projecting by p and then by q within p is projecting by q: objects, lists, scalars, all and nothing |
| `Projection.MigrationTransparent` | src/portmark/projection.py:29-123 | under grants at or below the migration's, the provider's view of the migrated state is its view of the original |
| `Projection.TransparentAfterNarrowing` | src/portmark/projection.py:65-123 | in particular after any narrowing of effective grants at the destination |
| `Projection.CutIsOpinionated` | src/portmark/security.py:1796-1808 | effective grants always say what they share |
| `Projection.SecondHopSame` | src/portmark/projection.py:65-123 | projecting a migrated state again changes nothing |
| `RunProgress.RunRecord.Begin` | src/portmark/_run_progress.py:75-85 | one step: refused after abandonment, else recorded as the operation in flight |
| `RunProgress.RunRecord.Abandon` | src/portmark/_run_progress.py:69-73 | abandons and reports in one step |
| `RunProgress.RunRecord.Note` | src/portmark/_run_progress.py:87-97 | records identifiers and marks, never an operation |
| `RunProgress.RunTracker.BeginDrain` | src/portmark/a2a.py:291-296 | the grace is measured from the first call |
| `RunProgress.RunTracker.TryStart` | src/portmark/a2a.py:298-304 | a run starts if and only if draining has not begun |
| `RunProgress.RunTracker.Finish` | src/portmark/a2a.py:306-309 | a finished run is no longer active |
| `RunProgress.AbandonAll` | src/portmark/a2a.py:326-328 | every leftover run is abandoned, each reported as it stood |
| `Shutdown.NoStartAfterDrain` | src/portmark/a2a.py:291-304 | under every interleaving no run starts once draining has begun |
| `Shutdown.NothingBeginsAfterAbandonment` | src/portmark/_run_progress.py:69-85 | an abandoned run begins no operation and its report never changes |
| `Shutdown.AbandonSettles` | src/portmark/_run_progress.py:69-73 | abandoning takes the report as the run stood |
| `Shutdown.ReturnedMeansDone` | src/portmark/a2a.py:315-328 | when the wait has returned every run that ever started is finished or abandoned |
| `Shutdown.ReportNamesTheLastOperation` | src/portmark/_run_progress.py:61-85 | a report's operation is the last the run ever began, its effect is among at most sixteen distinct ones, every effect named was begun by that run, and they are its last sixteen unless one began again after dropping out |
| `Shutdown.ListsTheLastSixteen` | src/portmark/_run_progress.py:75-85 | all through a run its record lists exactly the last sixteen effects in the order they first began, if and only if none begins again once sixteen others have begun since |
| `Shutdown.FirstReturns` | src/portmark/_run_progress.py:75-85 | seventeen effects and then the first again is such a run |

## Left out

- Cryptography: key files, keyrings, Ed25519, HMAC and AES-GCM; digests are injective terms and signatures predicates.
- Witness request authentication, the token bucket, and the shape checks of ids, nonces and reasons; bodies arrive decoded.
- Hosts with only a floor or only a witness; the model has both. The rebaseline's paging of heads over several advances.
- SQLite and Postgres variants of the store; the in-memory store's rules are the model, and a transaction is one step.
- WitnessOrder.RetryIsIdempotent: heads are a list, standing for the object in its canonical order; a request that lists the same heads in another order is the same request in the code, and is not represented twice here.
- HostCopies.OnlyTheLastCommitIsMissing: that event hashes chain, each determining the events before it, is a hypothesis; a recovery tells its heads in one request.
- EffectLedger.EffectStore.ReconcileEffect: rivals only ask for claims; passes that renew, settle and release against each other are in `EffectRuns`, one effect id at a time, since ids share no row.
- Constraints.IntersectNarrows: keys are maps rather than dictionaries walked in a loop, so the order of keys and which failing key is named are not modelled; a set is held decoded, so one with a value of the wrong kind under a known key is not represented, and neither are NaN and infinities.
- Authority.CutBelow: grants are a map by name, the last of a repeated name winning, as the intersection itself builds it.
- RunHost.TaskRun.Execute: the effect ledger's answers are part of what the environment gives, its rows being `EffectRuns`; the audit events a run appends, metrics, abandoned runs and store errors other than a cancellation are not modelled; admission's fresh-or-resume branch, receipts and attestation are reduced to the authority and the first save; that a migrated task must resume with its own component is not modelled.
- ExportRuns.ExportNeverInvalid: a page write is atomic, and policy, keyring and trust are fixed; the level-2 comparison with the store and the order in which `after` walks the heads are not modelled.
- Ocsf.RoundTrip: a head whose signature status is a list or an object raises in the code and is a failure here.
- TrustedClocks.TrustedClock.Now: one call reads both clocks and judges them in one step; listeners and logging are not modelled; rounding of floats is not.
- TokenSchedule.RenewalsBeginInTime: a wait is served exactly, what a tick spends on other servers is at most what `OthersMayTake` allows, and that a renewal which began also finishes in time is not claimed beyond the slack it starts with; refused and failed renewals end what is claimed of their token.
- StreamReaders.ReadEvents: whether a frame answers is a parameter; sockets, deadlines and `_read_bounded` are left out.
- Headers.HeaderRoundTrip: the decoder is the receiving side's rule as the code documents it; lone surrogates, which cannot be encoded, are not texts.
- JsonDepth.RefusesExactly: the size cap, UTF-8 decoding and the non-finite number hooks around the scan are left out.
- Projection.MigrationTransparent: deep copies are the identity on values, so that no container is shared is not shown.
- Shutdown.ReturnedMeansDone: how long the wait lasts is not modelled; it may stop waiting at any time after draining began.
- The rate limiter, the ASGI application, the command line, OAuth, MCP worker processes, Wasm providers, sandboxing, attestation, preflight, approval-token verification, policy files and configuration.
