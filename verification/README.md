# Nopal, modelled and proved

Nopal lets an agent's tool call run only after a chain of checks: the command is classified, a
lease is taken, gates are selected from the repository's authority files, run and recorded, an
approval is asked for where policy says so, and one durable release is consumed. This project
models that chain and proves what it is for.

- **Transaction** (`Preparation`, `Planning`, `Verification`, `Soundness`, `Drift`, `DriftInstance`,
  `Convergence`): planning from
  contract files and evidence, and the loop that observes, plans, runs gates, re-observes, records
  receipts and releases. The host is a record of functions on worlds of any type; every observation,
  contract read and gate run returns the next world, so gates and outside processes may change the
  workspace at any call. `Verifier` is the loop as it is written; `AdvanceOf` is what it computes.
- **Evidence** (`Evidence`, `Ledger`, `OneShot`): the run ledger as files, a history of every path
  ever written and an event log, with batches committed as a whole or not at all.
- **Leases** (`Lease`, `LeaseSafety`): the tool guard cut at its await points, and every
  interleaving of tool calls, tool results and session shutdowns over it.
- **Selection and composition** (`Selection`, `SelectionLaws`, `Composition`, `CompositionLaws`).
- **Parsers and scanners** (`StrictComma`, `StrictCommaGrammar`, `ShellScan`, `ShellLaws`,
  `CommentMask`, `CommentMaskLaws`).
- **Workspace patterns** (`WorkspaceGlob`, `WorkspaceGlobLaws`), **distribution lock** (`Lock`,
  `LockAgreement`), **output budget** (`OutputCollector`), **byte framing** (`Framing`).

`Ordering`, `Wrappers` and `Gates` hold sorting, options and the gate documents. Code that updates
things step by step is a class or a method with loops, proved equal to a specification function;
the theorems are about those functions. Digests and keyed signatures are modelled by the values
they cover, so equal digests mean equal content; `Framing` proves that the bytes fed to them keep
distinct content distinct. `dafny verify dfyconfig.toml` checks everything.

## Findings

- **Definitions can drift.** The transaction compares contract digests after a gate ran, but never
  the definition it executed with the definition the new plan has under the same id. Two authority
  sources may give one id different meanings behind different selectors; a gate that changes the set
  of changed files then has its success recorded under the other definition. `ReleaseSoundness` is
  therefore about gate ids. For a contract that declares at most as many protected gates as one pass
  accepts, executed and recorded definitions coincide in every session exactly when no two change
  sets make one call plan different gates under one id (`StableDefinitionsAreExact`); beyond that
  number two conflicting plans still drift if one of them fits a pass (`ConflictDrifts`).
  `TwoMeaningsDrift` is an instance. Preparing a session refuses every contract that gives a
  protected id two meanings, so under a prepared contract nothing drifts
  (`PreparedContractsNeverDrift`): drift needs a contract edited after preparation.
- **A conflict can empty a stage.** Dropping generated gates never empties a stage, but an id taken
  by an earlier stage does. A stage is represented exactly when it keeps a gate whose id no earlier
  stage has (`StageIsRepresentedIff`); `ConflictEmptiesAStage` is an instance. Without a conflict
  diagnostic no stage is lost (`NoConflictKeepsStages`).
- **Backslashes are misspelled.** Expanded workspace paths are reported with backslashes turned into
  slashes, so they are the directories' own paths exactly when no matching directory has a backslash
  in its path (`PathsAreTheirOwnIffNoBackslash`, instance `BackslashIsMisspelled`). Literal `.` and
  empty components are spelled into the path as well; they are part of the paths spoken of here.
- **Ids reused across a shutdown can break exclusion.** An answer an earlier call still waits for
  touches whatever lease its id has by then. Exclusion holds in every run in which no lease goes to
  an id with such an answer to come (`MutualExclusion`), and whenever a run may give one to such an
  id it can go on to let two calls through together (`StaleReuseBreaksExclusion`). The call itself,
  the record of its interruption and the record of its result can each outlast a completed shutdown
  (`IdReuseBreaksExclusion` has a run for each); reusing the id of a call that is done is harmless.
- **Trimming can cut a word.** Segments are trimmed before they are split into words. The words stay
  the same exactly when trimming does not take away the white space that a last backslash escapes
  (`TrimWords`); `TrimmingCutsAWord` is an instance.

## Model

| member | source | states |
|---|---|---|
| Ledger.RunLedger.CommitEffectBatch | crates/nopal-core/src/run_ledger_store.rs:2484-2590 | a batch is published as one revision when every effect is admitted against the state before it, and changes nothing otherwise |
| Ledger.RunLedger.AdmitBatch | crates/nopal-core/src/run_ledger_store.rs:2484-2590 | creation needs a path neither present, nor ever used, nor created twice in the batch; a strict removal needs a present path |
| Ledger.CommitFrame | crates/nopal-core/src/run_ledger_store.rs:837-907 | a batch leaves every path it does not name as it was, and history only grows |
| Planning.PlanForIntent | crates/nopal-core/src/enforcement.rs:231-426 | the planning pass computes the plan specification: strictest policies, selected gates, receipts and approval looked up under the exact subject |
| Planning.ReadReceipts | crates/nopal-core/src/enforcement.rs:360-397 | a status for every selected gate, and the gates without a current receipt in selection order |
| Soundness.PlanFacts | crates/nopal-core/src/enforcement.rs:360-426 | a plan names one subject throughout; with nothing left to run every selected gate has a receipt current for exactly that subject |
| Soundness.GateEvidenceFacts | crates/nopal-core/src/enforcement.rs:553-637 | evidence is admitted only for a gate planned under its id, and records exactly the expected contract, workspace, definition and binding |
| Soundness.AttemptReceipts | crates/nopal-core/src/enforcement.rs:553-637 | an attempt files exactly one receipt when it exited with 0 and none otherwise |
| OneShot.ReleasedOnce | crates/nopal-core/src/enforcement.rs:1201-1252 | over every sequence of offered directives, at most one release for an action, binding and tool call |
| OneShot.SettledAndReceiptedOnce | crates/nopal-core/src/enforcement.rs:1287-1330 | at most one outcome per release, and each receipt path is created at most once |
| OneShot.AskReleasedOnStandingYes | crates/nopal-core/src/enforcement.rs:1107-1153 | an ask is released only while the latest response for its binding is an unconsumed yes, and the release consumes it |
| OneShot.ReplayIsConsistent | crates/nopal-core/src/enforcement.rs:1107-1252 | the ledger's approvals are exactly the standing yeses, in every reachable state |
| Verification.Verifier.Advance | crates/nopal-cli/src/verification.rs:61-174 | the transaction computes its specification: passes until one decides, at most three |
| Verification.Verifier.RunPass | crates/nopal-cli/src/verification.rs:74-169 | one pass observes, plans, logs the decision, and denies, runs what is required or concludes |
| Verification.Verifier.RunRequired | crates/nopal-cli/src/verification.rs:93-148 | the required gates run in order until one ends the transaction |
| Verification.Verifier.ExecuteGate | crates/nopal-cli/src/verification.rs:95-103 | a gate's result is bound to the workspace observed after it |
| Verification.Verifier.Record | crates/nopal-cli/src/verification.rs:103-146 | the result is recorded against the plan made in the state the gate left, or the transaction fails |
| Verification.Verifier.Finish | crates/nopal-cli/src/verification.rs:150-169 | with nothing required the transaction asks, verifies, or consumes one release |
| Verification.Verifier.Observe | crates/nopal-cli/src/verification.rs:176-181 | an observation overwrites the intent's changed files and fingerprint |
| Verification.Verifier.MakePlan | crates/nopal-cli/src/verification.rs:183-198 | a plan is made from the contract as it is read now and the ledger as it stands |
| Soundness.RecordedRun | crates/nopal-cli/src/verification.rs:103-131 | a recorded run names the executed gate's id, the observed workspace and the pass's contract, and files its receipt under the subject observed after it |
| Soundness.PassIsSound | crates/nopal-cli/src/verification.rs:74-169 | every pass keeps all receipts earned, and grants only on earned receipts |
| Soundness.ReleaseSoundness | crates/nopal-cli/src/verification.rs:61-174 | after any session and for every gate behaviour, a verified or released plan has, for each selected gate, a recorded run of that id with exit code 0 on the last observed workspace under the planned contract, and a receipt for the same action, contract, definition and binding |
| Soundness.SessionIsSound | crates/nopal-cli/src/verification.rs:61-174 | every receipt in the ledger was earned by a run, over any history of transactions, approvals, releases, outcomes and outside edits |
| Soundness.StableDefinitionsAreExecuted | crates/nopal-cli/src/verification.rs:96-131 | when no call plans two gates under one id, every run executed the definition its record names |
| Drift.StableDefinitionsAreExact | crates/nopal-cli/src/verification.rs:96-131 | for the assembled core and a contract of at most 256 protected gates, executed and recorded definitions coincide in all sessions exactly when no call plans two gates under one id |
| Drift.ConflictDrifts | crates/nopal-cli/src/verification.rs:74-147 | when two change sets of one call plan two gates under one id and either selection fits a pass, a workspace and gate behaviour exist in which one gate's success is recorded as the other's |
| Drift.SelectionsFit | crates/nopal-core/src/enforcement.rs:906-959 | no selection holds more gates than the sources declare for the protected stages |
| DriftInstance.TwoMeaningsDrift | crates/nopal-cli/src/verification.rs:96-131 | a contract with two meanings of one id behind disjoint selectors drifts, and preparation refuses it |
| Preparation.GateExecutorRequirements | crates/nopal-core/src/enforcement.rs:428-474 | the listing loops give every protected gate once, or the first id with two meanings |
| Preparation.PreparedIff | crates/nopal-core/src/enforcement.rs:428-474 | a contract is prepared exactly when it is valid and gives every protected id one meaning across all sources |
| Preparation.RequiredAreDeclared | crates/nopal-core/src/enforcement.rs:425-474 | whatever an action selects, for any change set, is among the gates preparation looks at |
| Preparation.PreparedContractsAreStable | crates/nopal-core/src/enforcement.rs:428-474 | a prepared contract plans one gate per id for every call and every change set |
| Preparation.PreparedContractsNeverDrift | crates/nopal-cli/src/verification.rs:96-131 | under a prepared contract every run in every session executed the definition its record names |
| Drift.RecordSucceeds | crates/nopal-cli/src/verification.rs:103-131 | a successful run is recorded whenever the contract stands, its id is still planned and its receipt is new |
| Drift.StandardSelectsUniquely | crates/nopal-core/src/enforcement.rs:906-959 | selection over all sources never plans one id twice |
| Convergence.AdvanceIsBounded | crates/nopal-cli/src/verification.rs:20-147 | one transaction starts at most 3 times 256 gates |
| Convergence.RefusalIsACollision | crates/nopal-cli/src/verification.rs:118-131 | the ledger refuses an attempt only because its receipt path was used before |
| Convergence.FreshGates | crates/nopal-cli/src/verification.rs:93-148 | in a first pass receipts never collide, wherever the gates leave the workspace |
| Convergence.CalmPass | crates/nopal-cli/src/verification.rs:74-148 | with observation and contract standing still, a pass completes the subject's receipts, and the next one requires nothing |
| Convergence.ConvergesOnceCalm | crates/nopal-cli/src/verification.rs:74-173 | a first transaction whose workspace stands still after the first pass never runs out of passes and never collides with its own evidence |
| Convergence.SettlesWhenGatesSucceed | crates/nopal-cli/src/verification.rs:74-173 | if moreover everything succeeds and the same ids stay selected, it verifies, releases or asks |
| Convergence.NothingLeftIsAuthorized | crates/nopal-cli/src/verification.rs:150-158 | the branch for an unauthorized subject is never taken |
| Lease.PiActionGuard.ToolCall | extensions/policy-gate/guard.ts:226-291 | up to the first await: refuse while poisoned or shutting down, poison on a duplicate or a conflict, or take the lease |
| Lease.PiActionGuard.Planned | extensions/policy-gate/guard.ts:317-357 | a plan that needs the workspace alone upgrades the lease if it is the only one, or gives it up |
| Lease.PiActionGuard.Advanced | extensions/policy-gate/guard.ts:359-396 | the first advance leads to refusal, to an approval, or to a release |
| Lease.PiActionGuard.Readvanced | extensions/policy-gate/guard.ts:407-423 | after an approval only a release goes on |
| Lease.PiActionGuard.Release | extensions/policy-gate/guard.ts:425-455 | a release is tied to the lease; without one the call is blocked, and during shutdown it is interrupted |
| Lease.PiActionGuard.InterruptionRecorded | extensions/policy-gate/guard.ts:438-451 | a recorded interruption gives the lease up, an unrecorded one poisons the guard |
| Lease.PiActionGuard.ToolResult | extensions/policy-gate/guard.ts:461-469 | a result names its call's release, or poisons the guard |
| Lease.PiActionGuard.OutcomeRecorded | extensions/policy-gate/guard.ts:470-486 | a recorded outcome gives the lease up, an unrecorded one poisons the guard |
| Lease.PiActionGuard.SessionShutdown | extensions/policy-gate/guard.ts:488-491 | shutdown closes the guard and counts the run as interrupted when calls are active or the guard is poisoned |
| Lease.PiActionGuard.ShutdownEnded | extensions/policy-gate/guard.ts:532-542 | a completed shutdown resets everything, a failed one leaves the guard poisoned |
| Lease.PiActionGuard.Drop | extensions/policy-gate/guard.ts:220-224 | removing a call frees the mutating slot only if it was its own |
| Lease.SegmentsKeepExclusion | extensions/policy-gate/guard.ts:212-291 | in whatever order segments run, a mutating lease is the only lease and the only one marked |
| LeaseSafety.MutualExclusion | extensions/policy-gate/guard.ts:277-357 | of two calls let through and unsettled, neither mutates nor had its lease upgraded, in every interleaving in which no lease goes to an id with an answer still to come |
| LeaseSafety.ShutdownStopsHandlersInFlight | extensions/policy-gate/guard.ts:425-455 | a handler in flight when shutdown begins never lets its tool run, not even after the flags are reset |
| LeaseSafety.NoLeaseWhileClosed | extensions/policy-gate/guard.ts:226-233 | while poisoned or shutting down no handler takes a lease |
| LeaseSafety.ResetLeavesNothingUnsettled | extensions/policy-gate/guard.ts:488-543 | a shutdown that resets the flags leaves no let-through call without a recorded outcome |
| LeaseSafety.RunStaysGood | extensions/policy-gate/guard.ts:212-543 | every lease has the handler that took it and every unsettled release its lease, in every reachable state |
| LeaseSafety.StaleReuseBreaksExclusion | extensions/policy-gate/guard.ts:220-543 | whenever a fair run may give a lease to an id for which an earlier call still has an answer to come, it can go on, starting no other id, until two let-through calls of that id are unsettled, one a mutation unless other reads were active |
| LeaseSafety.IdReuseBreaksExclusion | extensions/policy-gate/guard.ts:425-543 | a run for each kind of answer that outlasts a completed shutdown, ending with a mutation and another call let through together |
| Selection.Select | crates/nopal-core/src/selection.rs:104-232 | selection sorts its input, pulls gates in reference order, suppresses superseded defaults and reports the rest |
| Selection.CoversSelection | crates/nopal-core/src/selection.rs:238-276 | the cover test computes its declarative form: every changed file is matched by a selector that reaches an explicit gate at the stage |
| SelectionLaws.SelectionPartitions | crates/nopal-core/src/selection.rs:104-232 | every declared gate appears exactly once across selected and skipped, and nothing else does |
| SelectionLaws.FirstReferenceWins | crates/nopal-core/src/selection.rs:104-232 | selected gates match the stage and stand in the order of their first references |
| SelectionLaws.ChangedFilesAreASet | crates/nopal-core/src/selection.rs:104-113 | permuting or repeating the changed files changes nothing |
| SelectionLaws.SuppressionKeepsCover | crates/nopal-core/src/selection.rs:114-276 | whenever a default is superseded an explicit gate is selected at the stage, and with selectors every changed file is covered by a selected explicit gate |
| Composition.SelectRequiredGates | crates/nopal-core/src/enforcement.rs:906-959 | the nested loops compute the retained gates' first occurrences by id, with a conflict for every later gate of another meaning |
| CompositionLaws.ComposedIdsAreUnique | crates/nopal-core/src/enforcement.rs:928-958 | returned ids are unique and exactly the retained ones |
| CompositionLaws.NoConflictMeansAgreement | crates/nopal-core/src/enforcement.rs:940-957 | there is no conflict exactly when every retained gate agrees with the returned gate of its id |
| CompositionLaws.DroppingGeneratedKeepsStages | crates/nopal-core/src/enforcement.rs:921-939 | a stage retains a gate exactly when some source selected one for it |
| CompositionLaws.StageIsRepresentedIff | crates/nopal-core/src/enforcement.rs:912-958 | a stage is represented among the returned gates exactly when it retains a gate whose id no earlier stage has |
| CompositionLaws.NoConflictKeepsStages | crates/nopal-core/src/enforcement.rs:912-958 | without conflicts every stage some source selected for is represented |
| CompositionLaws.ConflictEmptiesAStage | crates/nopal-core/src/enforcement.rs:912-958 | an instance in which a selected stage is not represented |
| StrictComma.StrictCommaViolation | crates/nopal-core/src/config.rs:72-171 | the stack machine answers what the token scan specifies |
| StrictCommaGrammar.StrictCommaDecidesTheGrammar | crates/nopal-core/src/config.rs:72-171 | for every value tree printed with each sibling comma kept or dropped, the scan answers none exactly when none was dropped, and otherwise the first token that lacks its comma |
| ShellScan.ShellWords | extensions/policy-gate/classifier.ts:224-251 | words are a function of the common lexical reading |
| ShellScan.SplitShell | extensions/policy-gate/classifier.ts:253-281 | pieces are a function of the same reading |
| ShellScan.ScanOperators | extensions/policy-gate/classifier.ts:304-329 | so is the first objection |
| ShellScan.UnsupportedShellSyntax | extensions/policy-gate/classifier.ts:289-330 | line breaks, a leading assignment, a nested shell and active characters are refused, in this order |
| ShellScan.StripEnvAssignments | extensions/policy-gate/classifier.ts:283-287 | leading assignments are dropped |
| ShellScan.ParseShellSegments | extensions/policy-gate/classifier.ts:332-348 | segments are those of the pieces, with nested scripts parsed in turn; the recursion ends on every string |
| ShellLaws.LexIsLossless | extensions/policy-gate/classifier.ts:224-329 | the common reading loses no character |
| ShellLaws.ObjectionIffActive | extensions/policy-gate/classifier.ts:304-329 | no objection exactly when every character is inert and every quote is closed |
| ShellLaws.AcceptanceIsExact | extensions/policy-gate/classifier.ts:289-330 | a command is accepted exactly when it has no line break, leading assignment or nested shell and the shell would act on none of its characters |
| ShellLaws.TrimWords | extensions/policy-gate/classifier.ts:336-346 | with closed quotes, trimming keeps the words exactly when it does not cut the white space a last backslash escapes, and otherwise only that white space is lost |
| ShellLaws.TrimmingCutsAWord | extensions/policy-gate/classifier.ts:336-346 | an instance: the escaped space at the end of a word is lost |
| ShellLaws.AcceptedIsOneCommand | extensions/policy-gate/classifier.ts:224-348 | an accepted command has closed quotes, is one piece under the four separators, and parses to at most one segment without entering a nested script |
| ShellLaws.WordsUndoPrint | extensions/policy-gate/classifier.ts:224-251 | scanning single-quoted, escaped words gives the words back |
| ShellLaws.PrintedIsInert | extensions/policy-gate/classifier.ts:289-330 | printed words are refused only for line breaks, a leading assignment or a nested shell |
| ShellLaws.ScannedWordsAreBounded | extensions/policy-gate/classifier.ts:224-348 | scanned words are together no longer than the input, and a nested script is shorter than its command |
| CommentMask.StripGoComments | crates/nopal-core/src/gate_scaffold.rs:1106-1161 | the flag-driven loop computes the masking automaton |
| CommentMask.MaskLine | crates/nopal-core/src/gate_scaffold.rs:1139-1145 | a line comment is masked up to its line break |
| CommentMask.StripXmlComments | crates/nopal-core/src/gate_scaffold.rs:1166-1193 | the searching form computes the character automaton |
| CommentMaskLaws.GoIsIdempotent | crates/nopal-core/src/gate_scaffold.rs:1102-1161 | masking Go comments twice is masking them once |
| CommentMaskLaws.UnchangedIffNoComment | crates/nopal-core/src/gate_scaffold.rs:1106-1161 | a Go text is unchanged exactly when no comment starts outside its literals |
| CommentMaskLaws.GoKeepsLines | crates/nopal-core/src/gate_scaffold.rs:1106-1161 | the number of line breaks is kept |
| CommentMaskLaws.VisibleIsOutside | crates/nopal-core/src/gate_scaffold.rs:1102-1161 | the visible text after masking is exactly the visible text outside comments |
| CommentMaskLaws.XmlKeepsPositions | crates/nopal-core/src/gate_scaffold.rs:1163-1193 | every character keeps its position; outside comments it stays, inside it becomes a space or stays a line break |
| CommentMaskLaws.XmlKeepsLength | crates/nopal-core/src/gate_scaffold.rs:1166-1193 | length and number of line breaks are kept |
| CommentMaskLaws.NoOpenerLeft | crates/nopal-core/src/gate_scaffold.rs:1166-1193 | no masked text holds a comment opener |
| CommentMaskLaws.XmlIsIdempotent | crates/nopal-core/src/gate_scaffold.rs:1166-1193 | masking XML comments twice is masking them once |
| CommentMaskLaws.XmlUnchangedIffNoOpener | crates/nopal-core/src/gate_scaffold.rs:1166-1193 | an XML text is unchanged exactly when it holds no opener |
| WorkspaceGlob.Expansion.ExpandWorkspacePattern | crates/nopal-core/src/gate_scaffold.rs:1478-1501 | one pattern's matches, sorted and without repeats, over the budget left |
| WorkspaceGlob.Expansion.ExpandComponents | crates/nopal-core/src/gate_scaffold.rs:1503-1602 | the recursion computes its specification and ends by its depth bound |
| WorkspaceGlob.Expansion.ConfinedChildDirectories | crates/nopal-core/src/gate_scaffold.rs:1604-1634 | the unexcluded directories in name order, until the budget runs out; a link blocks the plan |
| WorkspaceGlob.Expansion.TakeEntry | crates/nopal-core/src/gate_scaffold.rs:1438-1452 | an entry beyond the bound blocks the plan and spends the budget |
| WorkspaceGlob.Expansion.TakeWorkspace | crates/nopal-core/src/gate_scaffold.rs:1454-1468 | a match beyond the bound blocks the plan and spends the budget |
| WorkspaceGlobLaws.PatternIsExactOrBlocked | crates/nopal-core/src/gate_scaffold.rs:1427-1634 | unless blocked or failed, the list is the sorted duplicate-free set of non-root directories whose path matches, with no excluded component |
| WorkspaceGlobLaws.ExpandIsExact | crates/nopal-core/src/gate_scaffold.rs:1503-1602 | each step adds exactly what its components reach below its directory |
| WorkspaceGlobLaws.PathsAreTheirOwnIffNoBackslash | crates/nopal-core/src/gate_scaffold.rs:1515-1519 | the returned paths are the directories' own exactly when no matching directory has a backslash in its path |
| WorkspaceGlobLaws.BackslashIsMisspelled | crates/nopal-core/src/gate_scaffold.rs:1515-1519 | an instance of the misspelling |
| WorkspaceGlobLaws.BudgetIsShared | crates/nopal-core/src/gate_scaffold.rs:1427-1476 | across all patterns at most 4096 entries and 256 matches are accepted |
| Lock.ValidateBundle | crates/nopal-core/src/distribution.rs:1149-1243 | validation of a contract computes its problems |
| Lock.ValidateLock | crates/nopal-core/src/distribution.rs:1039-1119 | validation of a lock computes its problems |
| Lock.NormalizeBundle | crates/nopal-core/src/distribution.rs:1286-1296 | packages by id and exports by kind and path |
| Lock.BuildLock | crates/nopal-core/src/distribution.rs:197-391 | the builder computes its specification |
| Lock.LockLocalPackage | crates/nopal-core/src/distribution.rs:919-985 | a package is locked with its tree hash and one hash per export |
| LockAgreement.FirstExportOwns | crates/nopal-core/src/distribution.rs:824-852 | over the exports of a package the first one of a canonical path owns it, owners from before keep it, and nothing else is owned |
| LockAgreement.OwnersStay | crates/nopal-core/src/distribution.rs:197-391 | over a whole build an owner, once recorded, is never replaced |
| Lock.InspectTexts | crates/nopal-core/src/distribution.rs:542-817 | the checker computes its specification |
| LockAgreement.BundleValidIff | crates/nopal-core/src/distribution.rs:1149-1243 | a contract has no problem exactly when ids and exports are distinct and each request is well formed |
| LockAgreement.LockValidIff | crates/nopal-core/src/distribution.rs:1039-1119 | the same for a lock |
| LockAgreement.FitsIff | crates/nopal-core/src/distribution.rs:609-798 | the checker is content with a locked package exactly when it is, up to order, the one the builder locks |
| LockAgreement.BuilderAndCheckerAgree | crates/nopal-core/src/distribution.rs:197-817 | for builtin and workspace packages on one tree, the checker accepts a lock exactly when the builder succeeds and the lock is its result up to order |
| LockAgreement.BuiltLockIsAccepted | crates/nopal-core/src/distribution.rs:197-817 | what was built is accepted |
| LockAgreement.ReportsHoldTheContract | crates/nopal-core/src/distribution.rs:560-817 | a report that is ok holds exactly the requested packages and exports |
| LockAgreement.NotOkIsEmpty | crates/nopal-core/src/distribution.rs:800-817 | a report that is not ok holds nothing |
| LockAgreement.BuildForgetsOrder | crates/nopal-core/src/distribution.rs:1286-1296 | reordering packages or exports in the contract gives the same lock |
| OutputCollector.SharedOutput.FetchAdd | crates/nopal-cli/src/gate_executor.rs:536-536 | an addition on a machine word answers what was there before |
| OutputCollector.SharedOutput.Keep | crates/nopal-cli/src/gate_executor.rs:537-544 | a chunk within the limit is captured, one beyond it raises the flag |
| OutputCollector.StepsOnTheShared | crates/nopal-cli/src/gate_executor.rs:523-547 | threads touch what they share only by these two steps |
| OutputCollector.CapturesStayWithinLimit | crates/nopal-cli/src/gate_executor.rs:523-547 | in every interleaving the captures together stay within the limit, while the counter does not wrap |
| OutputCollector.QuietCapturesAreExact | crates/nopal-cli/src/gate_executor.rs:523-547 | with both pipes at their end, an unraised flag means both captures are exactly what was written |
| OutputCollector.FlagIffOverLimit | crates/nopal-cli/src/gate_executor.rs:536-540 | with no chunk in hand the flag is raised exactly when more than the limit was read |
| OutputCollector.FinishedMeansComplete | crates/nopal-cli/src/gate_executor.rs:452-519 | a successful result holds everything the gate wrote, within the limit, and the gate was not killed |
| Framing.ContractDigest.Record | crates/nopal-core/src/enforcement.rs:200-214 | one record absorbs its frame |
| Framing.ContractDigest.RecordAll | crates/nopal-core/src/enforcement.rs:195-219 | the absorbed stream is the framing of the records |
| Framing.RecordsAreReadBack | crates/nopal-core/src/enforcement.rs:200-214 | a decoder reads every record sequence back, missing distinct from empty |
| Framing.FramingIsInjective | crates/nopal-core/src/enforcement.rs:200-214 | different record sequences never frame to the same bytes |
| Framing.SubjectIsReadBack | crates/nopal-core/src/enforcement.rs:1436-1449 | a decoder reads the six signed fields and the exit code back |
| Framing.SigningIsInjective | crates/nopal-core/src/enforcement.rs:1436-1449 | different subjects are never signed over the same bytes |
| Framing.ReceiptIdentityIsInjective | crates/nopal-core/src/enforcement.rs:1332-1350 | what a receipt's file name is the digest of fixes gate and binding |
| Framing.Pads | crates/nopal-core/src/enforcement.rs:1422-1435 | the pad loop fills both arrays with the normalized key combined with their constants |
| Framing.KeysAreConfusedIff | crates/nopal-core/src/enforcement.rs:1422-1428 | for either constant, keys of at most a block give the same pad exactly when they differ in trailing zeros only |

## Left out

- The policy evaluator, the parsers of contract files and the glob library: arbitrary functions of their inputs.
- Git, processes, timeouts, signals, permissions and symbolic-link checks outside the pattern expansion: the host is a record of functions, and an observation is a fingerprint with changed files.
- SHA-256, HMAC and base64: digests and signatures are modelled by what they cover. Nothing is claimed about which trees a tree hash separates.
- The machine command that records a gate result on its caller's word is not part of sessions; its directive is among the offers of `OneShot`.
- Ledger capacity, disk faults and crash recovery: a commit succeeds exactly when its effects are admitted.
- Texts, order and severity below error of diagnostics; explanations, winners and isolation data of plans; statistics counters of the guard.
- Npm packages in the agreement of builder and checker: the builder modelled is the one without resolution evidence. The checker's npm path is modelled.
- Parsing of contract and lock texts: builder and checker start from parsed documents, and a lock is assumed to read back as it was written.
- Overlapping session shutdowns: the model has one shutdown at a time. It may visit leases in any order.
- `strip_build_comments`, the removal of heredocs and prose, the classification rules and path confinement: tables and patterns.
- Surrogate pairs and bytes that are not UTF-8: strings are sequences of Unicode characters. Where a bound counts bytes it is only reached by text that is refused for another reason.
- OutputCollector.CapturesStayWithinLimit: assumes fewer than 2^64 bytes were counted, because the counter wraps there; the flag is up long before, and a successful result never gets that far.
- Convergence.ConvergesOnceCalm: assumes that no receipt or release exists for the call when the transaction starts, as a gate that restores an earlier workspace collides with the receipt it earned there.
- Drift.StableDefinitionsAreExact: covers contracts of at most 256 protected gates and requests a transaction serves (the pinned mode, a key of at least 32 bytes). A selection above the limit starts only after smaller selections of the call have earned it receipts; when two conflicting selections both exceed the limit, no exact condition is given.
