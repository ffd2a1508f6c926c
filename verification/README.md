# Proofs about the cross-file evaluation engine

This project models the evaluation engine in `scripts/cross_file_*.py` in Dafny and proves properties of it.
The engine runs an agent on a question for up to three rounds per arm, gates every round on diagnostics evidence,
grades it, and scores the result from logs, ledgers and receipts.

Five components are modelled.

- **Round state machine.** `GuardSpec` and `RunnerSpec` give every transition as a function of a state value.
  `ClosedLoopGuard` and `FiveRoundRunner` are the objects that update their fields, proved equal to those functions.
  `RunnerInvariants`, `WholeRun`, `GateSoundness`, `NamedEvidence`, `GateHistory`, `GradingOutcome`, `BudgetAudit`,
  `BudgetWitnesses` and `Persistence` hold the results over all runs: any calls in any order, with graders that pass,
  fail, break down or raise.
  `EventAcceptor` is what the evidence adapter demands of an event log, `EventAdapter` its pass over one; `RunTrace` and
  `ProducerRefinement` relate them to the runs, `LossyCalls` says which calls come between them, `Scoring` compares the
  three places that score an arm, and `CleanRun` follows one planned, passing round from the planner to its points.
- **Corrected ledger.** `LedgerGraph`, `LedgerLinks`, `Lineage`, `OrderedLineage`, `LineageOrder`, `LedgerTotals`,
  `CorrectedLedger` and `LedgerOrder` go from the graph searches to the built report.
- **Scheduler.** `Scheduler` is the two-lane arm scheduler with arbitrary completion sets.
- **Diff parser and coverage planner.** `HunkHeader`, `HunkBody`, `DiffParser`, `DiffRoundTrip` and `PlainPaths` treat
  unified diffs; `CoveragePlan`, `TargetText` and `PlanAgreement` the planner, the lines it demands and its agreement with
  the guard.
- **Evidence chain and replay store.** `ReceiptChain` and `ReplayStore`.

`Evidence` holds the exemption registry and trajectory, `QualityPoints` the points, `Wrappers` and `Sequences` shared
definitions.

`dafny verify dfyconfig.toml` checks the project.

Some properties one would expect are false of the code. The project keeps the code's behaviour, gives an input that
shows the failure, and proves the exact condition:

- Grading does not imply coverage: `RetrySkipsCoverage`. Exactly when it does: `GradedRoundCoverage`.
- Consumed flags and quality budget part in both directions: `RefusalFlaggedFree`, `RecoveryChargedUnflagged`. Exactly
  when they match: `FlagsMatchBudget`; over whole runs: `BudgetEquation`.
- A saved state may be refused on load: `TaskedGateIsRefused`, `PersistenceRoundTrip`.
- A log the adapter accepts need not come from a run, and then scores may differ: `ForgedLogSplitsScores`. Exactly when
  they agree: `AcceptedScores`. On logs of runs they always do: `ScoresAgree`.
- A run that succeeded with a clean log may still be refused by the adapter: `UngradedRoundIsRefused`. Exactly when it is
  accepted: `ProducerMeetsAcceptor`, with `LossyExact` for the calls in question.
- A ledger score can depend on the raw record order: `DiamondScoresDiffer`, `ScoreOrderIndependence`.
- A printed diff may not read back: `EmptyAddedLooksModified`, `NewlineMarkerIsRefused`, `DiffRoundTrip`.
- The planner can emit a registry that the guard refuses: `ExemptTestFileIsRefused`, `RegistryAgreement`.

Texts are normalised values; an empty text stands for a missing one. A sorted tuple of distinct values is a set.
Error messages are constructors. Rows and pairs of a ledger report come in an unspecified order where the code sorts
by name.

## Model

| member | source | states |
|---|---|---|
| `WholeRun.WholeRunInvariant` | scripts/cross_file_closed_loop_guard.py:1480-1736 | After any sequence of runner calls with any grader: records are numbered 1..lastRound and at most 3, a gate is pending exactly in status evidence_recovery_required and for the next round, and quality_rounds_used equals the blocked rounds plus the verdicts, at most lastRound. |
| `WholeRun.SuccessIsLastVerdict` | scripts/cross_file_closed_loop_guard.py:2247-2371 | In every run the status is succeeded exactly when the last record passed; accepted means passed; no earlier record ever passed. |
| `WholeRun.TerminalAbsorption` | scripts/cross_file_five_round_runner.py:725-740 | Once a run is closed, every continuation leaves state and event log exactly as they were. |
| `WholeRun.VerdictsAreFinal` | scripts/cross_file_closed_loop_guard.py:2255-2371 | However a run continues, its log is a prefix of the later log and every record with a verdict stays equal. |
| `WholeRun.RetryBound` | scripts/cross_file_five_round_runner.py:1056-1098 | Every record is graded at most 1 + R times, a run has at most 3(1 + R) grader events, as many as its records count, and no request can meet the exhausted-budget error. |
| `ProducerRefinement.ProducerMeetsAcceptor` | scripts/cross_file_evidence_adapter.py:249-350 | For every run, whatever its calls raised: the adapter accepts the log if and only if the run is scoreable, has no no_progress event and no failed recovery, no call raised after it had logged an event or dropped the gate, and identity, question and final patch match. |
| `GateHistory.AuthorisedRoundsAreCovered` | scripts/cross_file_closed_loop_guard.py:1833-2240 | In every run, the call that made a record with decision allow_grader has the same round, patch and production files, an accepted exemption registry and, with LSP, every non-exempt production file covered: each is named by a diagnostics call or receipt of that request, or of the request that opened the gate it answers. |
| `GateHistory.RecordNames` | scripts/cross_file_closed_loop_guard.py:492-594 | In every run, a With-LSP record without a contract failure covers a required file if and only if a diagnostics call or validated receipt of the request that made it names the file, or one of the request that opened its gate does. |
| `GradingOutcome.GradingExact` | scripts/cross_file_five_round_runner.py:813-944 | Every authorised grading that keeps the protocol: the round is charged and judged, with the verdict of the feedback, if and only if the feedback is resolved and no infrastructure failure; otherwise no verdict, and the arm is closed unverified exactly for unavailable or unresolved feedback or grading number 1 + R. The logged events say the same. |
| `TargetText.TargetsAreText` | scripts/cross_file_diagnostics_coverage.py:405-493 | A planned target demands line n if and only if n is the number in the new file of a context or added line that stands in the diff text in a hunk of that file. |
| `Persistence.DecodeExact` | scripts/cross_file_closed_loop_guard.py:1171-1325 | A document loads if and only if it is consistent, said without the order of the checks, and saving what was loaded gives the document back up to empty texts and the default source. |
| `GateHistory.GradedRoundCoverage` | scripts/cross_file_closed_loop_guard.py:2129-2240 | In every run, a graded With-LSP round is covered if and only if it answered an evidence gate or the request that made its record left nothing missing. |
| `BudgetAudit.BudgetEquation` | scripts/cross_file_five_round_runner.py:957-1029 | In every run the quality budget equals the events flagged as consumed, plus the blocked recoveries, minus the refused quality rounds that left no record. |
| `Scoring.AcceptedScores` | scripts/cross_file_ab_audit.py:1786-1798 | On every accepted log, whoever wrote it: the ledger score is the audit score, the audit refuses exactly a contradicting official verdict, and the event score agrees if and only if the least pass, if worth points, is a quality round whose last verdict is that pass. |
| `LedgerOrder.ReportsAgree` | scripts/cross_file_corrected_ledger.py:680-770 | Two reports on the same records in any two raw orders show the same current and corrected attempts and, if every group is settled, the same final and round totals. |
| `Persistence.PersistenceRoundTrip` | scripts/cross_file_closed_loop_guard.py:1171-1325 | A reachable state decodes from its own encoding to itself if and only if the no-progress limit is positive and no task id sits on a trajectory gate; requests whose tasks all come with a receipt source never cause one. |
| `Scoring.ScoresAgree` | scripts/cross_file_ab_audit.py:1786-1798 | On every accepted log of any run, also one with calls that raised after an effect, the event score, the audit score of the round summary and the ledger score all equal 13 - 3 * last round if succeeded, else 0; the audit refuses exactly a contradicting official verdict. |
| `CorrectedLedger.Build` | scripts/cross_file_corrected_ledger.py:635-826 | A ledger is accepted if and only if it is not empty, its links are sound and acyclic, a declared hash is the digest of the input, selectors cover all keys or none, and every instance and arm has one root (the selected one) and one sink; the report then has one lineage row per key, each scored 13 - 3 * first pass or 0, and the totals of the rows. |
| `CorrectedLedger.SumRows` | scripts/cross_file_corrected_ledger.py:737-770 | The totals are the sums of the rows' final scores and of their scores up to each round. |
| `OrderedLineage.LineageTheorem` | scripts/cross_file_corrected_ledger.py:509-550 | The lineage is a permutation of its group in topological order that starts at the only root and ends at the only sink. |
| `LineageOrder.ScoreOrderIndependence` | scripts/cross_file_corrected_ledger.py:545-570 | The score is the same for every raw order if and only if the first round that some deepest record passes is passed by all deepest records of that round. |
| `LineageOrder.LineageOrderIndependence` | scripts/cross_file_corrected_ledger.py:545-550 | The lineage is the same for every raw order if and only if no two attempts of the group share a depth, as in a chain. |
| `CorrectedLedger.TotalsConserved` | scripts/cross_file_corrected_ledger.py:737-770 | Pair final scores and pair round totals sum to the global corrected totals, and the third round totals are the final totals. |
| `Scheduler.LaneScheduler.Run` | scripts/cross_file_benchmark_runner.py:1798-1997 | Whatever completes when: the loop ends, every arm was submitted exactly once, every slot holds its own arm, nothing is queued or running; forty arms at a limit of forty are started in plan order. |
| `DiffRoundTrip.DiffRoundTrip` | scripts/cross_file_diagnostics_coverage.py:443-631 | Parsing the printed form of any sections, with arbitrary body text and any metadata lines between header, renames, markers and hunks, returns the same files and hunks if and only if paths are distinct, no hunk ends in a newline marker, and added or deleted sections have a hunk. |
| `PlanAgreement.PlannedRoundIsGraded` | scripts/cross_file_closed_loop_guard.py:2104-2240 | A With-LSP round with a new patch that follows an emitted plan (structure, xref and the planned diagnostics call) is authorised with nothing missing and no violation. |
| `CleanRun.PlannedPassIsAccepted` | scripts/cross_file_five_round_runner.py:946-1003 | End to end: a first round that follows an emitted plan and passes yields a log the adapter accepts and ten points. |
| `ReplayStore.ConsumeOnce` | scripts/cross_file_artifact_bridge.py:457-493 | For every interleaving of any number of consume calls with failures and crashes between any steps: no signature succeeds twice, every success is on file, the visible file is never torn. |
| `ReceiptChain.HeadBindsStream` | scripts/cross_file_go_receipts.py:43-87 | With an injective digest, two accepted chains with the same head digest have equal length and equal signed material at every position. |
| `Evidence.Registered` | scripts/cross_file_closed_loop_guard.py:237-294 | A path has a registered kind exactly when some entry names it, and the kind is such an entry's. |
| `Evidence.RequiredIsNonExempt` | scripts/cross_file_closed_loop_guard.py:252-294 | The required files are exactly the production files with neither a mark of their own nor a registry entry. |
| `Evidence.IndexRegistry` | scripts/cross_file_closed_loop_guard.py:252-270 | Indexing succeeds exactly for distinct paths and current rounds, and the index answers like the first matching entry. |
| `Evidence.ClassifyChanges` | scripts/cross_file_closed_loop_guard.py:271-294 | Classification succeeds exactly when every change is allowed, and yields the effective classification. |
| `Evidence.ValidateExemptionRegistry` | scripts/cross_file_closed_loop_guard.py:237-294 | Accepted if and only if entries are distinct, current and about production files, and every marked change has its entry. |
| `Evidence.RegistryIdempotent` | scripts/cross_file_closed_loop_guard.py:237-294 | Validating the effective classification again accepts it and changes nothing. |
| `Evidence.AlignKeepsRequired` | scripts/cross_file_closed_loop_guard.py:579-594 | Alignment is the identity on required paths, even when one required path is a suffix of another. |
| `Evidence.AlignCoversRequired` | scripts/cross_file_closed_loop_guard.py:579-594 | Every required path that was diagnosed is still there after alignment. |
| `Evidence.AlignDiagnosticsPaths` | scripts/cross_file_closed_loop_guard.py:579-594 | The loop computes the aligned set: a path with exactly one match stands for it, any other for itself; no required path is lost. |
| `Evidence.McpEvents` | scripts/cross_file_closed_loop_guard.py:486-494 | Keeps exactly the MCP events; there are any exactly when the trajectory has one. |
| `Evidence.FindUnsupportedTool` | scripts/cross_file_closed_loop_guard.py:386-402 | Finds an MCP event outside structure, xref and diagnostics exactly when there is one. |
| `Evidence.FindForeignTool` | scripts/cross_file_closed_loop_guard.py:405-424 | Finds a tool call that is no MCP structure, xref or diagnostics call exactly when there is one. |
| `Evidence.ToolsUsed` | scripts/cross_file_closed_loop_guard.py:626-630 | The tools of the MCP events. |
| `Evidence.CollectDiagnostics` | scripts/cross_file_closed_loop_guard.py:532-536 | The paths of the MCP diagnostics events and of no others. |
| `Evidence.ValidateFailureSeparation` | scripts/cross_file_closed_loop_guard.py:760-788 | Accepted if and only if infrastructure failures stay clear of the code agent and no source reports both kinds. |
| `ClosedLoopGuard.Guard.StartEvidenceRecovery` | scripts/cross_file_closed_loop_guard.py:1565-1648 | Opens the gate of the specified transition, or fails for a pending gate, nothing required or a missing task. |
| `ClosedLoopGuard.Guard.RecordQualityRound` | scripts/cross_file_closed_loop_guard.py:1650-1736 | Appends the record and moves streak, budget and status exactly as the transition function says. |
| `ClosedLoopGuard.Guard.ObserveRound` | scripts/cross_file_closed_loop_guard.py:539-576 | Computes the coverage observation of the request. |
| `NamedEvidence.CoverageExact` | scripts/cross_file_closed_loop_guard.py:492-594 | A With-LSP request that breaks no contract covers a required file if and only if an MCP diagnostics call has the file itself as a path, or a path that ends in it after a slash and in no other required file; with receipts, if and only if the validated chain covers it. |
| `NamedEvidence.EvaluationNamed` | scripts/cross_file_closed_loop_guard.py:1833-2240 | Every evaluation: a new record covers exactly what its request names and the gate it answers had, and a new gate holds the scope and observation of the request that opens it. |
| `GateHistory.GateHasOpener` | scripts/cross_file_closed_loop_guard.py:1565-1648 | In every run a pending gate was opened by one earlier quality call and untouched since. |
| `ClosedLoopGuard.Guard.TransportFailureDeclared` | scripts/cross_file_closed_loop_guard.py:815-830 | Says whether the turn, a receipt status or a failure record declares a transport failure. |
| `ClosedLoopGuard.Guard.ObserveCanonical` | scripts/cross_file_closed_loop_guard.py:833-961 | Computes the receipt observation, with the receipt validators as arbitrary answers. |
| `ClosedLoopGuard.Guard.ObserveIsolation` | scripts/cross_file_closed_loop_guard.py:833-961 | No-LSP with canonical evidence: the five refusals in order. |
| `ClosedLoopGuard.Guard.ObserveStream` | scripts/cross_file_closed_loop_guard.py:833-961 | With-LSP receipts: refusals, transport failure and covered files in order. |
| `ClosedLoopGuard.Guard.SemanticToolsMissing` | scripts/cross_file_closed_loop_guard.py:597-640 | Says whether a With-LSP production round lacks a structure or an xref call. |
| `ClosedLoopGuard.Guard.CompleteRecovery` | scripts/cross_file_closed_loop_guard.py:1990-2102 | Closes the gate with a quality record, or fails for what is still missing. |
| `ClosedLoopGuard.Guard.CheckSource` | scripts/cross_file_closed_loop_guard.py:1906-1946 | A recovery keeps the gate's evidence source, its task and the stream's generation, or is refused for the first that drifts. |
| `ClosedLoopGuard.Guard.AnswerPendingGate` | scripts/cross_file_closed_loop_guard.py:1895-2102 | Answers the pending gate from its evidence source. |
| `ClosedLoopGuard.Guard.EvaluateEvidenceRecovery` | scripts/cross_file_closed_loop_guard.py:1833-2102 | The whole recovery transition, including a recovery without a gate. |
| `ClosedLoopGuard.Guard.ValidateIdentity` | scripts/cross_file_closed_loop_guard.py:1416-1444 | Binds the first identity of round 1, or accepts only the same owner resuming, field by field. |
| `ClosedLoopGuard.Guard.ValidateRecoveryIdentity` | scripts/cross_file_closed_loop_guard.py:1446-1461 | Accepts only the owner the arm was started with. |
| `ClosedLoopGuard.Guard.IsInfrastructureRetry` | scripts/cross_file_closed_loop_guard.py:1466-1478 | Recognises the retry of an ungraded last record with its round and patch. |
| `ClosedLoopGuard.Guard.ValidateSequence` | scripts/cross_file_closed_loop_guard.py:1480-1501 | Accepts the next round of an open guard, or the retry of an infrastructure failure. |
| `ClosedLoopGuard.Guard.MakeRecord` | scripts/cross_file_closed_loop_guard.py:1697-1711 | A new record carries the owner, round, patch, scope and coverage, and is neither started nor graded. |
| `ClosedLoopGuard.Guard.RetrySameRound` | scripts/cross_file_closed_loop_guard.py:2129-2145 | A same-round retry re-authorises the last record after the owner check. |
| `ClosedLoopGuard.Guard.EvaluateQualityRound` | scripts/cross_file_closed_loop_guard.py:2104-2240 | The whole quality transition with its sequence and identity errors. |
| `ClosedLoopGuard.Guard.EvaluateRound` | scripts/cross_file_closed_loop_guard.py:2104-2240 | Dispatches between recovery and quality round as specified; on an open guard it keeps the invariant for every retry budget, and an authorised answer fits the last record. |
| `ClosedLoopGuard.Guard.Grade` | scripts/cross_file_closed_loop_guard.py:2247-2371 | Grading writes the verdict, budget and status into the last record exactly as specified, or refuses unchanged; an authorised round is always graded, once more than before. |
| `FiveRoundRunner.ArmRunner.constructor` | scripts/cross_file_five_round_runner.py:576-610 | A new runner is valid, with an empty guard and an empty log. |
| `FiveRoundRunner.ArmRunner.SettleArm` | scripts/cross_file_five_round_runner.py:742-765 | Closes the arm as unverified after an inconclusive grading or a spent retry budget. |
| `FiveRoundRunner.ArmRunner.Grade` | scripts/cross_file_five_round_runner.py:813-944 | Grades, logs the result and settles the arm; on a valid runner with an authorised round it leaves the verdict, charge, status and events that the feedback alone determines. |
| `FiveRoundRunner.ArmRunner.ReplyFor` | scripts/cross_file_five_round_runner.py:884-893 | The reply handed to the guard: raised, infrastructure, or the verdict. |
| `FiveRoundRunner.ArmRunner.StepAfter` | scripts/cross_file_five_round_runner.py:919-944 | The step lists the one or two events logged and reads its flags off the new state. |
| `FiveRoundRunner.ArmRunner.BuildEvent` | scripts/cross_file_five_round_runner.py:670-723 | The event carries the request, outcome, grading and status it is built from. |
| `FiveRoundRunner.ArmRunner.ValidEvent` | scripts/cross_file_five_round_runner.py:670-723 | An event is appended exactly if its numbers are in range and its texts are there. |
| `FiveRoundRunner.ArmRunner.LogOutcome` | scripts/cross_file_five_round_runner.py:946-1003 | Logs an evaluated outcome and grades it if it is authorised. |
| `FiveRoundRunner.ArmRunner.SubmitQualityRound` | scripts/cross_file_five_round_runner.py:946-1003 | The quality call as the function the run theorems quantify over; it keeps the runner valid, only extends its log and history, never meets a spent budget, and leaves a closed runner untouched. |
| `FiveRoundRunner.ArmRunner.SubmitEvidenceRecovery` | scripts/cross_file_five_round_runner.py:1005-1054 | The recovery call as the function the run theorems quantify over; it keeps the runner valid, only extends its log and history, never meets a spent budget, and leaves a closed runner untouched. |
| `FiveRoundRunner.ArmRunner.RetryInfrastructureRound` | scripts/cross_file_five_round_runner.py:1056-1098 | The retry call as the function the run theorems quantify over; it keeps the runner valid, only extends its log and history, never meets a spent budget, and leaves a closed runner untouched. |
| `FiveRoundRunner.ArmRunner.RecordNonQualityFailure` | scripts/cross_file_five_round_runner.py:767-811 | The non-quality failure call as the function the run theorems quantify over; it keeps the runner valid, only extends its log and history, never meets a spent budget, and leaves a closed runner untouched. |
| `FiveRoundRunner.ArmRunner.ExecuteRound` | scripts/cross_file_five_round_runner.py:1100-1119 | The runner afterwards is the result of one quality call, at most one recovery and then retries; the loop ends, keeps the log, and leaves no retry to do when retries are supplied. |
| `FiveRoundRunner.OneActionAtATime` | scripts/cross_file_five_round_runner.py:946-1003 | A quality step asks for evidence or for a retry, never for both. |
| `FiveRoundRunner.CallKeeps` | scripts/cross_file_five_round_runner.py:725-1098 | Any call on a sound runner keeps it sound, extends log and history, and is refused without effect once the runner is closed. |
| `RunnerInvariants.EvaluateKeeps` | scripts/cross_file_closed_loop_guard.py:2104-2240 | Evaluating any request keeps the state invariant, and an authorised outcome fits the last record. |
| `RunnerInvariants.RunGraderKeeps` | scripts/cross_file_closed_loop_guard.py:2247-2371 | Grading an authorised outcome succeeds, keeps the core invariant, counts one grading and ends in infrastructure_failure exactly for an infrastructure reply. |
| `RunnerInvariants.RecordQualityKeeps` | scripts/cross_file_closed_loop_guard.py:1650-1736 | Recording a quality round keeps numbering, budget and status consistent. |
| `RunnerInvariants.RecordInfraKeeps` | scripts/cross_file_closed_loop_guard.py:1738-1797 | Recording an infrastructure round keeps the invariant. |
| `RunnerInvariants.OpenGateKeeps` | scripts/cross_file_closed_loop_guard.py:1565-1648 | Opening a gate keeps the invariant. |
| `RunnerInvariants.EmptyInv` | scripts/cross_file_closed_loop_guard.py:1393-1460 | A new guard satisfies the invariant for every retry budget. |
| `RunnerInvariants.CloseKeeps` | scripts/cross_file_closed_loop_guard.py:1503-1563 | Dropping a gate with a contract failure or a moved patch keeps the invariant of an open guard. |
| `WholeRun.UnverifiedKeeps` | scripts/cross_file_closed_loop_guard.py:2373-2395 | Closing as unverified works exactly for an active or infrastructure-failed state, and keeps invariant and records. |
| `RunnerInvariants.QualityMoves` | scripts/cross_file_closed_loop_guard.py:2104-2240 | What a quality evaluation can do to an active state: one record, one gate, or a terminal refusal. |
| `RunnerInvariants.RecoveryMoves` | scripts/cross_file_closed_loop_guard.py:1833-2102 | What a recovery can do: the owner asks, and a recovered round has the gate's round and patch. |
| `RunnerInvariants.RetryMoves` | scripts/cross_file_closed_loop_guard.py:2129-2145 | A retry re-authorises only the same owner, round and patch, and otherwise fails the contract. |
| `WholeRun.DoKeeps` | scripts/cross_file_five_round_runner.py:946-1098 | Every call keeps the runner invariant, only extends the log, and never meets a spent budget. |
| `WholeRun.RunKeeps` | scripts/cross_file_five_round_runner.py:946-1098 | So does every sequence of calls. |
| `WholeRun.ClosedAbsorbs` | scripts/cross_file_five_round_runner.py:725-740 | A closed runner ignores every further call. |
| `WholeRun.GradingBound` | scripts/cross_file_five_round_runner.py:742-765 | A runner logs at most 3(1 + R) grader results. |
| `EventAcceptor.QualityMembers` | scripts/cross_file_evidence_adapter.py:249-300 | The quality view of a log holds exactly its quality events. |
| `EventAcceptor.ResultIsEvent` | scripts/cross_file_evidence_adapter.py:300-350 | The verdict of a round is one of its own grader results. |
| `EventAdapter.ValidateEvents` | scripts/cross_file_evidence_adapter.py:233-350 | The adapter's pass over the events, check by check, accepts exactly the logs of the acceptor. |
| `EventAdapter.CheckOrder` | scripts/cross_file_evidence_adapter.py:249-272 | Contiguous numbers, earlier parents, nothing after a terminal event or status. |
| `EventAdapter.CheckOwner` | scripts/cross_file_evidence_adapter.py:273-286 | Every event has the expected owner and question, field by field. |
| `EventAdapter.CheckRounds` | scripts/cross_file_evidence_adapter.py:287-293 | Quality rounds are numbered 1 to at most 3. |
| `EventAdapter.Children` | scripts/cross_file_evidence_adapter.py:310-318 | Whether grader results name the event as parent, and all have its patch. |
| `EventAdapter.CheckAction` | scripts/cross_file_evidence_adapter.py:303-330 | A recovery or retry keeps its quality round's patch and owns a result; a recovery succeeded. |
| `EventAdapter.FinalResult` | scripts/cross_file_evidence_adapter.py:331-337 | The last grader result of a round. |
| `EventAdapter.CheckVerdict` | scripts/cross_file_evidence_adapter.py:331-350 | The last result of a quality round is a verdict on its patch. |
| `EventAdapter.CollectQuality` | scripts/cross_file_evidence_adapter.py:287-287 | The quality events in order. |
| `RunTrace.CleanQuality` | scripts/cross_file_five_round_runner.py:946-1003 | A quality event keeps the log in step with the records: order, patches, child results. |
| `RunTrace.CleanAction` | scripts/cross_file_five_round_runner.py:1005-1098 | An authorising recovery or retry event keeps it so, pending its grading. |
| `RunTrace.CleanGrading` | scripts/cross_file_five_round_runner.py:813-944 | The grading event gives the pending action its child. |
| `RunTrace.LogGrows` | scripts/cross_file_five_round_runner.py:670-723 | Every appended event keeps the log ordered and owned, its last result per round equal to the verdict on the record, and a pass the end of the run. |
| `RunTrace.LogStays` | scripts/cross_file_five_round_runner.py:946-1098 | So does a call that changes the state and appends nothing. |
| `RunTrace.DamageStays` | scripts/cross_file_five_round_runner.py:813-1098 | A quality event without its record, an unjudged round and a failed recovery are never repaired by later events. |
| `ProducerRefinement.CallLogs` | scripts/cross_file_five_round_runner.py:813-1098 | Every call, returning or raising, keeps the log in step with the guard state, or leaves damage exactly when it is lossy or logs an unclean event. |
| `ProducerRefinement.RunLogs` | scripts/cross_file_five_round_runner.py:813-1098 | So does every run. |
| `ProducerRefinement.AcceptedUndamaged` | scripts/cross_file_evidence_adapter.py:249-350 | An accepted log of an open or judged run shows no damage: as many quality events as records at most, a verdict on every record, every recovery successful. |
| `LossyCalls.LossyExact` | scripts/cross_file_five_round_runner.py:813-1098 | A call that leaves the arm open raises after an effect if and only if its grader breaks the protocol on an authorised round, or it is a recovery of another patch by the owner whose round or attempt number makes no event. |
| `LossyCalls.LosslessExact` | scripts/cross_file_five_round_runner.py:813-1098 | Over whole runs: no call was lossy if and only if no call met these guards. |
| `LossyCalls.UngradedRoundIsRefused` | scripts/cross_file_evidence_adapter.py:249-350 | The run that shows the condition: a grader breaks the protocol in round 1 and passes round 2; the run succeeded with a clean log that is never accepted. |
| `ProducerRefinement.CleanAccepted` | scripts/cross_file_evidence_adapter.py:249-350 | A scoreable clean run without a lossy call is accepted. |
| `ProducerRefinement.AcceptedClean` | scripts/cross_file_evidence_adapter.py:249-350 | An accepted log comes from a scoreable clean run without a lossy call, with the expected identity and patch. |
| `GateSoundness.ObservationSound` | scripts/cross_file_closed_loop_guard.py:539-576 | An observation with nothing missing has seen every required file. |
| `GateSoundness.ObservationExact` | scripts/cross_file_closed_loop_guard.py:539-576 | For a With-LSP request that breaks no contract, every non-exempt production file is covered if and only if nothing is missing. |
| `GateSoundness.AuthorisedIsCovered` | scripts/cross_file_closed_loop_guard.py:2147-2240 | A directly authorised With-LSP round has an accepted registry, full coverage and, on the trajectory source, both semantic tools. |
| `GateSoundness.RecoveredIsCovered` | scripts/cross_file_closed_loop_guard.py:1833-2102 | A round authorised by recovery has the gate's patch, owner, round and file scope, and gate and recovery together cover every non-exempt production file. |
| `GateSoundness.RecoveredBudget` | scripts/cross_file_five_round_runner.py:1023-1029 | A recovered round is blocked and costs a quality round if and only if its patch is the last judged one, although its event is not flagged. |
| `BudgetAudit.FlagsMatchBudget` | scripts/cross_file_five_round_runner.py:957-1029 | For every call, the consumed flags of its events match what it charges if and only if it is neither a quality call refused without a record nor a recovery that closes the gate on the last judged patch; both conditions are about the state and request before the call. |
| `BudgetAudit.CallDrifts` | scripts/cross_file_five_round_runner.py:957-1029 | By how much and in which direction flags and budget part in each of the two cases. |
| `BudgetAudit.UnrecordedExact` | scripts/cross_file_closed_loop_guard.py:1514-1546 | A quality call is refused with an event and no record if and only if it claims a recovery without a gate, or needs a receipt gate and has no task. |
| `BudgetAudit.ClosesExact` | scripts/cross_file_closed_loop_guard.py:1833-2102 | A recovery closes its gate if and only if owner, patch, round, attempt, registry, scope, mode, source, coverage and failure channels all fit. |
| `BudgetWitnesses.RefusalFlaggedFree` | scripts/cross_file_five_round_runner.py:957-966 | The runs that show the first case: one event flagged as consumed, nothing charged, no record. |
| `BudgetWitnesses.RecoveryChargedUnflagged` | scripts/cross_file_five_round_runner.py:1023-1029 | The run that shows the second case: a failed patch resubmitted, gated and recovered charges two rounds with one flag. |
| `GateSoundness.RetrySkipsCoverage` | scripts/cross_file_closed_loop_guard.py:2129-2145 | The run that shows it: a transport failure, its retry and a passing grading leave a succeeded With-LSP run whose graded record covers nothing. |
| `GateHistory.RecordsAreJustified` | scripts/cross_file_closed_loop_guard.py:1833-2240 | Every record of every run was made by a call of that run whose request decides its coverage. |
| `GateHistory.MadeOnce` | scripts/cross_file_closed_loop_guard.py:1650-1797 | Only one call makes a given record. |
| `Persistence.StateRoundTrip` | scripts/cross_file_closed_loop_guard.py:1171-1325 | For any consistent state: decoding its encoding succeeds, and gives it back, exactly for a positive limit and no task on a trajectory gate. |
| `Persistence.StatusRoundTrip` | scripts/cross_file_closed_loop_guard.py:106-118 | Every status text reads back as its status. |
| `Persistence.FieldsExact` | scripts/cross_file_closed_loop_guard.py:1171-1249 | The field checks pass exactly for counters in range and gate fields that are all absent or all in step. |
| `Persistence.HistoryExact` | scripts/cross_file_closed_loop_guard.py:1251-1325 | The history checks pass exactly for numbered records in step with identity, patches, budget and status. |
| `Persistence.TaskedGateIsRefused` | scripts/cross_file_closed_loop_guard.py:1601-1622 | The input that shows the condition: a trajectory gate opened with a task id is saved but refused on load. |
| `QualityPoints.LatestOfNumbered` | scripts/cross_file_corrected_ledger.py:557-566 | Of consecutively numbered entries the latest for a round is the entry of that number. |
| `QualityPoints.LedgerPassAt` | scripts/cross_file_corrected_ledger.py:566-575 | If only the last entry may pass, the first pass is the last round or none. |
| `QualityPoints.PointsFall` | scripts/cross_file_corrected_ledger.py:59-59 | A pass in round n of 1 to 3 is worth 13 - 3 * n, and nothing otherwise. |
| `Scoring.FirstPassIsLeast` | scripts/cross_file_benchmark_runner.py:386-397 | The first pass is the least round with a passing result, and there is one exactly when some result passes. |
| `Scoring.SummariseRounds` | scripts/cross_file_evidence_adapter.py:353-373 | The summary lists every quality round with its last verdict. |
| `Scoring.AuditExact` | scripts/cross_file_ab_audit.py:1786-1798 | The audit refuses exactly an empty summary and an official verdict that contradicts the rounds. |
| `Scoring.EventScoreAgrees` | scripts/cross_file_benchmark_runner.py:386-397 | In every run, accepted or not, the event score is the arm score and the first pass is the round that succeeded. |
| `Scoring.EventFollowsAudit` | scripts/cross_file_benchmark_runner.py:386-397 | On an accepted log the event points equal the audit points if and only if the least pass still stands. |
| `Scoring.LedgerFollowsAudit` | scripts/cross_file_corrected_ledger.py:557-575 | For consecutively numbered rounds the ledger points are the audit points. |
| `Scoring.ForgedLogSplitsScores` | scripts/cross_file_benchmark_runner.py:386-397 | The log that shows the condition: a pass overruled in its own round is accepted and scored differently by events and audit. |
| `CleanRun.FirstCallPasses` | scripts/cross_file_five_round_runner.py:813-1003 | An authorised first call that passes returns, succeeds and logs exactly its quality event and its verdict. |
| `CleanRun.FirstPassIsAccepted` | scripts/cross_file_evidence_adapter.py:249-350 | A run of one authorised passing round is accepted and worth ten points by event, audit and ledger score. |
| `LedgerGraph.CycleSearch.Visit` | scripts/cross_file_corrected_ledger.py:489-503 | A visit reports a cycle only if there is one; otherwise it adds the node to the visited set with a rank above its predecessors. |
| `LedgerGraph.CycleSearch.VisitAll` | scripts/cross_file_corrected_ledger.py:498-500 | The same for all predecessors of the open path's last node, in any order. |
| `LedgerGraph.DetectCycle` | scripts/cross_file_corrected_ledger.py:489-506 | The search raises if and only if the predecessor relation has a cycle; otherwise a rank falls along every edge. |
| `LedgerGraph.RankedIsAcyclic` | scripts/cross_file_corrected_ledger.py:489-506 | A relation with a rank has no cycle. |
| `LedgerGraph.Reachable` | scripts/cross_file_corrected_ledger.py:515-523 | The worklist returns a set closed under children, containing the start, in which everything else has a way in. |
| `LedgerGraph.DepthMemo.GetDepth` | scripts/cross_file_corrected_ledger.py:532-541 | The memo fills in exact longest-path depths, keeps earlier entries, and returns the node's depth. |
| `LedgerGraph.DepthUnique` | scripts/cross_file_corrected_ledger.py:530-544 | Depths are determined by the graph, so the filling order cannot matter. |
| `LedgerLinks.IndexById` | scripts/cross_file_corrected_ledger.py:432-438 | Indexing succeeds exactly for distinct attempt ids. |
| `LedgerLinks.CheckRecord` | scripts/cross_file_corrected_ledger.py:442-487 | A record passes exactly when its link shape, targets and evidence digest are sound. |
| `LedgerLinks.AddChild` | scripts/cross_file_corrected_ledger.py:476-477 | Adds the record as a child of exactly the attempts it supersedes. |
| `LedgerLinks.CollectEdges` | scripts/cross_file_corrected_ledger.py:440-487 | Succeeds exactly when every record is sound, and returns the relation in both directions. |
| `LedgerLinks.ValidateLinks` | scripts/cross_file_corrected_ledger.py:429-506 | Accepted if and only if ids are distinct, every record is sound and there is no cycle. |
| `Lineage.FilterSingle` | scripts/cross_file_corrected_ledger.py:682-706 | Exactly one record is selected if and only if there is exactly one such record. |
| `Lineage.GroupLinks` | scripts/cross_file_corrected_ledger.py:473-475 | The group of an instance and arm is a sound ledger of its own with the same children. |
| `Lineage.GroupRank` | scripts/cross_file_corrected_ledger.py:489-506 | The rank of the ledger is a rank of every group. |
| `Lineage.RootReaches` | scripts/cross_file_corrected_ledger.py:515-528 | From the only root every attempt is reached, so the unlinked-attempts error cannot occur with one root. |
| `Lineage.ReachedFromOnlyRoot` | scripts/cross_file_corrected_ledger.py:515-528 | A root from which the whole group is reached is the only root, even when it was selected. |
| `Lineage.HasSink` | scripts/cross_file_corrected_ledger.py:701-705 | Every attempt of an acyclic group leads to a sink, so every group has one. |
| `Lineage.SortSorts` | scripts/cross_file_corrected_ledger.py:545-550 | The sort is by depth. |
| `Lineage.SortPermutes` | scripts/cross_file_corrected_ledger.py:545-550 | The sort keeps every record, once. |
| `OrderedLineage.EdgeDeepens` | scripts/cross_file_corrected_ledger.py:532-541 | An attempt is deeper than every attempt it supersedes. |
| `OrderedLineage.FillDepths` | scripts/cross_file_corrected_ledger.py:543-544 | Every node gets its depth. |
| `OrderedLineage.ReachesAll` | scripts/cross_file_corrected_ledger.py:515-528 | The whole group is reached from a root if and only if it is the only root. |
| `OrderedLineage.Order` | scripts/cross_file_corrected_ledger.py:509-550 | Ordering succeeds if and only if the current attempt is the only root, and returns the group sorted by depth. |
| `OrderedLineage.PickCurrent` | scripts/cross_file_corrected_ledger.py:682-699 | Succeeds if and only if the selector names a root of the group or, without one, there is exactly one root; returns it. |
| `OrderedLineage.PickCorrected` | scripts/cross_file_corrected_ledger.py:701-706 | Succeeds if and only if there is exactly one sink, and returns it. |
| `OrderedLineage.Select` | scripts/cross_file_corrected_ledger.py:680-707 | A group is accepted if and only if it has one root, which any selector names, and one sink; the lineage then runs from one to the other. |
| `LineageOrder.InsertLatest` | scripts/cross_file_corrected_ledger.py:545-560 | What inserting a record does to the latest record of a round: it wins unless a deeper one is there. |
| `LineageOrder.DeepestIsLatest` | scripts/cross_file_corrected_ledger.py:557-560 | After the sort the record that counts for a round is a deepest one that reports it. |
| `LineageOrder.LastDeepestWins` | scripts/cross_file_corrected_ledger.py:545-560 | Among the deepest the last in raw order counts. |
| `LineageOrder.ChainIsSettled` | scripts/cross_file_corrected_ledger.py:545-570 | In a chain the condition for order-independent scores always holds. |
| `LineageOrder.ChoiceOrderIndependence` | scripts/cross_file_corrected_ledger.py:680-707 | Reordering raw records changes neither what is accepted nor the current and corrected attempts. |
| `LineageOrder.DepthOrderIndependence` | scripts/cross_file_corrected_ledger.py:530-544 | Nor any depth. |
| `LedgerOrder.AcceptedAlike` | scripts/cross_file_corrected_ledger.py:635-707 | Reordering the raw records does not change whether a ledger is accepted. |
| `LineageOrder.DiamondScoresDiffer` | scripts/cross_file_corrected_ledger.py:545-570 | The input that shows the condition: in an accepted diamond of two rivals that disagree on round 1, some raw order changes the score. |
| `LedgerTotals.CollectLatest` | scripts/cross_file_corrected_ledger.py:558-561 | The dictionary holds the latest record of every round. |
| `LedgerTotals.ScoreView` | scripts/cross_file_corrected_ledger.py:557-594 | The view shows the latest record per round, the first pass, and 13 - 3 * first pass points from that round on, or none. |
| `LedgerTotals.EarlierPassScoresMore` | scripts/cross_file_corrected_ledger.py:557-594 | One view scores strictly more than another if and only if its first pass is earlier or the other has none. |
| `LedgerTotals.RoundsAccumulate` | scripts/cross_file_corrected_ledger.py:570-577 | Round scores never fall, and the third is the final score. |
| `LedgerTotals.InstancesPartition` | scripts/cross_file_corrected_ledger.py:737-770 | Summing by instance and arm over distinct instances is summing over all rows. |
| `LedgerTotals.PairsConserve` | scripts/cross_file_corrected_ledger.py:747-770 | Pair scores sum to the totals, for the final score and for each round. |
| `CorrectedLedger.GroupReady` | scripts/cross_file_corrected_ledger.py:673-680 | Validated links give every group what its lineage needs. |
| `CorrectedLedger.BuildRow` | scripts/cross_file_corrected_ledger.py:680-715 | A row exists if and only if its group is accepted, and shows its attempts, lineage and both score views. |
| `CorrectedLedger.BuildRows` | scripts/cross_file_corrected_ledger.py:680-715 | All rows exist if and only if every group is accepted, one row per key. |
| `CorrectedLedger.ViewsByKey` | scripts/cross_file_corrected_ledger.py:744-746 | Every row is found under its key. |
| `CorrectedLedger.PairScore` | scripts/cross_file_corrected_ledger.py:748-770 | A pair shows exactly the arms of its instance and their sums. |
| `CorrectedLedger.PairScores` | scripts/cross_file_corrected_ledger.py:747-770 | One pair for every instance. |
| `Scheduler.LaneScheduler.constructor` | scripts/cross_file_benchmark_runner.py:1798-1803 | All arms queued in question order, nothing running, all slots empty. |
| `Scheduler.LaneScheduler.SubmitOne` | scripts/cross_file_benchmark_runner.py:1884-1896 | Starts the next question of the lane: it joins the running set, the lane's count and the end of the submission order. |
| `Scheduler.LaneScheduler.SubmitLeastLoaded` | scripts/cross_file_benchmark_runner.py:1988-1995 | Submits the next arm of the lane with fewer running arms among those with a queue, no_lsp on a tie; with both queues non-empty it lowers the imbalance by one, or makes it one from zero. |
| `Scheduler.LaneScheduler.Complete` | scripts/cross_file_benchmark_runner.py:1962-1987 | Frees the arm's place and fills its own slot, which was empty. |
| `Scheduler.LaneScheduler.FullWave` | scripts/cross_file_benchmark_runner.py:1817-1881 | The forty-arm wave starts every arm once in plan order while started arms finish in any order, fills every slot with its own arm, and leaves both queues empty. |
| `Scheduler.LaneScheduler.JoinSome` | scripts/cross_file_benchmark_runner.py:1828-1852 | Any set of started threads finishes, each in its own slot, and no other slot changes hands. |
| `Scheduler.LaneScheduler.InitialFill` | scripts/cross_file_benchmark_runner.py:1914-1934 | The first wave runs exactly the capacity, in plan order alternating between the lanes, with at most one more no_lsp arm. |
| `Scheduler.LaneScheduler.TopUp` | scripts/cross_file_benchmark_runner.py:1935-1940 | Submits exactly as many as fit and are queued. |
| `Scheduler.LaneScheduler.Fill` | scripts/cross_file_benchmark_runner.py:1914-1940 | After both fill loops the scheduler is safe, and the second loop submitted nothing. |
| `Scheduler.LaneScheduler.CompleteAll` | scripts/cross_file_benchmark_runner.py:1960-1987 | A completed set leaves the running set and may unbalance the lanes by at most its size. |
| `Scheduler.LaneScheduler.Refill` | scripts/cross_file_benchmark_runner.py:1988-1995 | One submission per completed arm while any is queued, ending balanced unless a queue was empty. |
| `Scheduler.LaneScheduler.Step` | scripts/cross_file_benchmark_runner.py:1960-1995 | Any non-empty completed set: still within max_concurrency, full while arms are queued, balanced until a queue runs dry, and more arms done. |
| `Scheduler.AllDone` | scripts/cross_file_benchmark_runner.py:1996-1997 | With nothing queued or running every slot is filled by its own arm and every arm was submitted once. |
| `HunkHeader.ReadShow` | scripts/cross_file_diagnostics_coverage.py:48-50 | A printed number reads back as itself. |
| `HunkHeader.RangeRoundTrip` | scripts/cross_file_diagnostics_coverage.py:48-50 | A range with or without its count reads back. |
| `HunkHeader.HeaderRoundTrip` | scripts/cross_file_diagnostics_coverage.py:443-457 | A printed hunk header, whatever text follows it, reads back exactly when no non-empty side starts at line 0, and is refused otherwise. |
| `HunkBody.BodyExact` | scripts/cross_file_diagnostics_coverage.py:459-492 | The reader stops after k lines if and only if those k lines have exactly the declared counts, with newline markers only between counted lines. |
| `HunkBody.ParseHunk` | scripts/cross_file_diagnostics_coverage.py:443-493 | The loop returns the header's hunk and the position the body function says, or its error. |
| `DiffParser.ParseSection` | scripts/cross_file_diagnostics_coverage.py:541-592 | The section loop computes the specified section and remaining lines. |
| `DiffParser.ReadNote` | scripts/cross_file_diagnostics_coverage.py:552-592 | One line outside hunks: marker, rename, skipped metadata or an error, by its literal prefix. |
| `DiffParser.FinishSection` | scripts/cross_file_diagnostics_coverage.py:593-624 | The paths and status of a section, or the first disagreement. |
| `DiffParser.ParseUnifiedDiff` | scripts/cross_file_diagnostics_coverage.py:511-631 | The file loop computes the specified list of files or an error. |
| `DiffParser.PathsDistinct` | scripts/cross_file_diagnostics_coverage.py:626-630 | Detects a repeated section path. |
| `Sequences.AllDistinct` | scripts/cross_file_diagnostics_coverage.py:626-630 | The seen-set loop answers whether any two elements are equal. |
| `DiffParser.SectionShrinks` | scripts/cross_file_diagnostics_coverage.py:549-592 | A section consumes a prefix of the lines. |
| `DiffRoundTrip.HunksPlaced` | scripts/cross_file_diagnostics_coverage.py:443-493 | The hunks of all accepted files, in order, stand one after the other in the text without overlap, each with its own header and a body of exactly its counts; every other line is blank, a section start, a marker, a rename or one of the nine metadata kinds, never a binary patch. |
| `DiffRoundTrip.BodyReadsCore` | scripts/cross_file_diagnostics_coverage.py:459-492 | The body reader takes a printed body up to its last counted line. |
| `DiffRoundTrip.HunkReads` | scripts/cross_file_diagnostics_coverage.py:443-493 | A printed hunk reads back if it ends in a counted line, and otherwise the section is refused. |
| `DiffRoundTrip.SectionReads` | scripts/cross_file_diagnostics_coverage.py:549-592 | A printed section reads back as its markers, renames and hunks, with any metadata lines among them. |
| `DiffRoundTrip.FinishReads` | scripts/cross_file_diagnostics_coverage.py:596-624 | The file reported for a section, including the empty added or deleted file that looks modified. |
| `PlainPaths.PlainReadsBack` | scripts/cross_file_diagnostics_coverage.py:347-405 | Unquoted, normalised paths in headers, markers and renames read back. |
| `PlainPaths.PlainExact` | scripts/cross_file_diagnostics_coverage.py:90-112 | A path is plain if and only if no segment between slashes is empty, a dot or two dots, no colon comes before the first slash, and no character needs quoting. |
| `PlainPaths.EmptyAddedLooksModified` | scripts/cross_file_diagnostics_coverage.py:596-624 | An input that does not read back: an empty added file is reported as modified. |
| `PlainPaths.NewlineMarkerIsRefused` | scripts/cross_file_diagnostics_coverage.py:459-492 | Another: a hunk that ends in a newline marker is refused. |
| `CoveragePlan.ResolveIs` | scripts/cross_file_diagnostics_coverage.py:1055-1067 | A resolved change has a section. |
| `CoveragePlan.Reconcile` | scripts/cross_file_diagnostics_coverage.py:1037-1080 | Succeeds if and only if the supplied changes match the sections one for one, directly or through a unique rename. |
| `CoveragePlan.ClassifyOne` | scripts/cross_file_diagnostics_coverage.py:1130-1147 | A change is classified if and only if entry, own mark and language agree, and then with its registered kind. |
| `CoveragePlan.Classify` | scripts/cross_file_diagnostics_coverage.py:1121-1169 | Succeeds if and only if every change fits the registry and every entry names a change. |
| `CoveragePlan.Emit` | scripts/cross_file_diagnostics_coverage.py:1171-1229 | Emits exactly the live changes and exempt production files, their entries, and the live non-exempt production targets, each with exactly the line numbers newStart + k, k < newCount, of its hunks. |
| `CoveragePlan.LinesAreConsecutive` | scripts/cross_file_diagnostics_coverage.py:405-442 | The changed lines of a file are the consecutive new numbers of its hunks; a file is live exactly with a new path and a hunk with new lines. |
| `CoveragePlan.CollectLines` | scripts/cross_file_diagnostics_coverage.py:429-434 | The loop over the hunks collects exactly the changed lines. |
| `CoveragePlan.PlansDemandLines` | scripts/cross_file_diagnostics_coverage.py:1171-1193 | Every plan demands exactly those lines. |
| `TargetText.HunkNumbersText` | scripts/cross_file_diagnostics_coverage.py:405-493 | The k-th context or added line in a hunk's text has number newStart + k, and these are all its lines. |
| `CoveragePlan.Keep` | scripts/cross_file_diagnostics_coverage.py:1216-1221 | Keeps exactly the entries of emitted paths. |
| `CoveragePlan.BuildCoverage` | scripts/cross_file_diagnostics_coverage.py:1096-1229 | From diff lines to plan: succeeds if and only if the diff parses and the changes can be planned, and emits that plan with exactly the new lines of the hunks. |
| `PlanAgreement.BuiltIsEmitted` | scripts/cross_file_diagnostics_coverage.py:1171-1229 | What the planner builds meets the conditions of the agreement. |
| `PlanAgreement.RegistryAgreement` | scripts/cross_file_closed_loop_guard.py:252-294 | The guard accepts the plan's registry if and only if no live file outside production is exempted. |
| `PlanAgreement.TargetsAgree` | scripts/cross_file_closed_loop_guard.py:252-294 | The files the guard demands are exactly the plan's diagnostics targets. |
| `PlanAgreement.NothingMissing` | scripts/cross_file_closed_loop_guard.py:553-594 | A round that makes the planned diagnostics call has nothing missing and breaks no contract. |
| `PlanAgreement.ExemptTestFileIsRefused` | scripts/cross_file_closed_loop_guard.py:252-294 | The input that shows the condition: one added test file with an entry can be planned under every language registry, its plan is emitted, and the guard refuses it in every round. |
| `ReplayStore.StepKeeps` | scripts/cross_file_artifact_bridge.py:457-493 | Every step of every process keeps mutual exclusion, current snapshots and all recorded entries. |
| `ReplayStore.NothingLost` | scripts/cross_file_artifact_bridge.py:457-493 | Whatever is on file at any time stays there, unchanged, in every continuation. |
| `ReplayStore.RecordedIsRefused` | scripts/cross_file_artifact_bridge.py:474-477 | A signature already on file is never consumed by any later step. |
| `ReplayStore.EndsForGood` | scripts/cross_file_artifact_bridge.py:457-493 | A call that succeeded, was refused, failed or crashed stays so in every continuation. |
| `ReplayStore.RefinesAtomicStore` | scripts/cross_file_artifact_bridge.py:470-487 | Every step leaves the file as it was or adds one new signature whole, and success is reported only for a recorded one. |
| `ReplayStore.Store.Consume` | scripts/cross_file_artifact_bridge.py:457-493 | One undisturbed call: succeeds exactly for a readable store without the signature, then adds it; lock and temporary are gone afterwards. |
| `ReplayStore.CallIsARun` | scripts/cross_file_artifact_bridge.py:457-493 | The undisturbed call is the run of one process through its steps. |
| `ReceiptChain.CheckRecord` | scripts/cross_file_go_receipts.py:56-82 | A record passes exactly when it stands at its place, its digest is its own and its signature verifies. |
| `ReceiptChain.ValidateStream` | scripts/cross_file_go_receipts.py:32-87 | Accepted if and only if no line is malformed, the records chain from 1, and there is one; returns the records. |
| `ReceiptChain.ChainGrows` | scripts/cross_file_go_receipts.py:56-84 | A chain goes on exactly while the next record links to it. |
| `ReceiptChain.AttestationPinsLog` | scripts/cross_file_artifact_bridge.py:784-791 | Two logs that fit one attestation carry the same signed material, even if the log digest collides, and are equal if it does not. |
| `ReceiptChain.ValidateNativeLog` | scripts/cross_file_artifact_bridge.py:334-367 | Accepted if and only if the log is blank, or is an accepted stream without blank lines and unknown fields; returns its records. |
| `ReceiptChain.ValidateAttestedLog` | scripts/cross_file_artifact_bridge.py:746-753 | A log fits an attestation exactly when it is native and its digest, record count and head are those attested. |
| `ReceiptChain.BlankLogAttested` | scripts/cross_file_artifact_bridge.py:784-791 | A blank log fits exactly the attestation with its digest, count 0 and an empty head. |
| `ReceiptChain.PrefixAccepted` | scripts/cross_file_go_receipts.py:43-87 | A prefix of an accepted stream is accepted if and only if it holds a record. |

## Left out

- Text-level reading: whitespace, aliases, key spellings, quoting in Git paths, Unicode line splitting and JSON.
  `DiffParser` takes the reading of path texts as a parameter and `PlainPaths` covers unquoted paths.
- Ed25519, SHA-256 and canonical encodings: the digest and the signature check are arbitrary functions, and injectivity
  is a stated assumption where it is used.
- Receipt validators, isolation validators and grader feedback promotion: their answers are arbitrary parts of a request
  or grading.
- Files, fsync and process start-up, except the replay store's lock, temporary file and rename. A crash between saving
  the guard and saving the events is not modelled.
- Threads, launch intervals and per-lane worker limits: a completion is any non-empty subset of the running arms.
- The language registry: an arbitrary classification of paths.
- Diagnostics argument normalisation, the diagnostics cache and `parse_diff_filter`: field checks.
- The ledger's authoritative hash, field differences between current and corrected attempts, and report
  formatting.
- Self-check, required-action and feedback-kind annotations of an outcome, which no transition reads.
- Prompt, identity and attestation envelopes beyond the receipt head and count, pricing and cost arithmetic.
- ReplayStore.Store.Consume: states one undisturbed call on a free lock; waiting and concurrency are in the step machine.
