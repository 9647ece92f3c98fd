# Verified model of the bridge's durable engines

This Dafny project models the parts of the bridge that must survive crashes, retries and concurrent processes, and proves what they promise: the executor transaction and its repair generations, the review authority that stands behind a published change set, the turn accounting of the reviewers, the orchestration ledger, the AUTOPILOT driver, the Phase 4 execution loop, and four compact algorithms.

`dafny verify dfyconfig.toml` checks everything.

## How it is built

* Durable effects are steps on a value: `Effects.Machine` holds the worktree, the durable receipt, the receipt in memory, and a schedule of faults. Each effect may succeed, fail without effect, fail after its effect, or be cut off by a crash on either side of it. A statement about "every run" quantifies over every schedule of every process.
* Where the program updates an object in place, a class with those fields runs the same steps (`Executor`, `RepairProcess`, `ReviewAuthority.Record`, `RunLedger.Book`, `DuplicateKeys.Scanner`), and each method is proved equal to the function that the lemmas are about. `Preparation.Preparer`, `ReviewTurns.Service`, `AutopilotDriver.Driver`, `ExecutionLoop.Service`, `GateEvidence.Store`, `ResourcePool.Pool` and `EntryPolicy.State` are proved directly, with the environment (reviewer answers, digests, clocks, aborts, writes, other drivers) as arguments. Where nothing fails, `ReviewTurns.Executes`, `ExecutionLoop.Executes` and `AutopilotDriver.Told` say field by field what those processes store.
* Checks that the program runs test by test (`StoreChecks`, `GateChecks`, `RunLedger.Validate`, `AutopilotJob.SemanticReceiptValid`) are methods that do the same, proved to accept exactly the receipts that the lemmas speak of.
* SHA-256 is a function parameter. Lemmas that need it say so: `CollisionFree(sha)`.
* Files are atomic: a read, write, removal or link happens as a whole or not at all.

| files | what they cover |
|---|---|
| `Prelude`, `Effects`, `Ordering` | shared vocabulary, the machine and its faults, sorting of paths |
| `Transaction`, `TransactionSafety`, `TransactionRollback`, `Executor`, `Preparation`, `ResumeChecks` | the executor transaction |
| `Repair`, `RepairSafety`, `RepairBinding`, `RepairProcess` | repair generations |
| `ChangeSet`, `GateEvidence` | deriving and attesting the final worktree; evidence files |
| `ReviewAuthority`, `StoreChecks`, `ReviewTurns` | which review covers a digest; the checks on its receipt; how often a reviewer is called |
| `EventChain`, `Controller`, `RunProgress`, `RunLedger` | the orchestration ledger |
| `AutopilotJob`, `AutopilotDriver` | the AUTOPILOT receipt and driver |
| `ExecutionGates`, `GateChecks`, `ExecutionLoop` | the Phase 4 loop |
| `ResourcePool`, `DuplicateKeys`, `EntryPolicy`, `ReviewerFreeze` | four compact algorithms |

## Where the code does not do what one would expect

Each of these is a proved statement, with the exact condition where there is one.

* A replacement whose preimage and postimage digests are equal can never be completed, because the preimage test comes first (`TransactionSafety.Completion`, `RepairSafety.RepairCompletion`; sound plans that meet it are given by the two lemmas `SameBytesNeverComplete`).
* The operation whose own write took effect before it failed is not rolled back by the applier, because it was never marked (`TransactionRollback.FailedApplyUndone`; `TransactionRollback.WrittenOperationStays` is a run that ends PREPARED with the created file still there). A repair's rollback does undo it (`RepairSafety.FailedRepairIsUndone`).
* After two repair generations over different files the receipt no longer describes the worktree, so attestation refuses it; the exact condition is that every registered path outside the newest generation is still at its registered postimage (`ChangeSet.EffectiveFinalExact`, `ChangeSet.SecondGenerationForgets`).
* The publish gate refuses stored READY receipts whose digest rests on a Web repair (`ReviewAuthority.PublishGateExact`; `ReviewAuthority.WebRepairIsNotPublished` is one).
* Evidence that was already used for an archived generation may be bound again, and then blocks every later generation (`ReviewAuthority.BindKeepsValid`; `ReviewAuthority.ReusedEvidenceBlocks` gets there in three stored generations).
* A run that is paused, without a running attempt, until its retry deadline has passed and whose next transition is not a wait can never be resumed, nor can anything else happen to it (`Controller.StepExact`, `Controller.OverdueForever`, `Controller.OverdueIsReachable`).
* An AUTOPILOT failure whose message fills the reason field cannot be stored, so the driver throws instead of asking its user (`AutopilotDriver.FullMessageNeverFits`, `AutopilotDriver.ReasonFitsExactly`, `AutopilotDriver.Driver.Iterate`).
* When the implementation budget is spent, the loop asks for a transition from VERIFICATION_FAILED to BUDGET_EXHAUSTED that the table refuses (`ExecutionGates.ReadyComesFromReview`, `ExecutionLoop.Service.Reject`).
* That transition is asked for exactly when the iterations reach the configured limit; when the contract's limit is the smaller one, the loop goes on to fix and the next turn ends the run for its budget (`ExecutionLoop.Service.Reject`).
* A run above its token limits need not be BUDGET_EXHAUSTED. When the file of an implementation report cannot be written and that report passes the limits, its tokens are in the receipt but not in the budget, and the run is stored FAILED; without such a write the limits are passed only in a run that ended for its budget (`ExecutionLoop.Service.Charge`, `ExecutionLoop.Service.Execute`, `ExecutionLoop.Service.Run`, `ExecutionLoop.ReportCanSlip`).
* FAILED is not final: a process whose start fails on a FAILED receipt stores the state of its own error, so an aborted start makes the run INTERRUPTED, which the next process resumes (`ExecutionLoop.Service.Execute`, `ExecutionLoop.Service.Close`).
* A reviewer interrupted under one legacy selection may be passed over by a process that selects the other reviewer; it is still never called again (`ReviewTurns.PassedOver`, `ReviewTurns.CanBePassedOver`, `ReviewTurns.Service.Run`).

## Model

| member | source | states |
|---|---|---|
| Effects.Process.Take | src/executor/worktree-io.ts:80-117 | one effect: whether it takes effect and how it ends, for every scheduled outcome |
| Effects.Process.Read | src/executor/worktree-io.ts:53-78 | a read changes nothing and fails on an oversized file |
| Effects.Process.Write | src/executor/worktree-io.ts:80-108 | a write replaces one file, or fails; creation needs an absent path |
| Effects.Process.Remove | src/executor/worktree-io.ts:110-117 | a removal takes one existing file away, or fails |
| Effects.Process.Save | src/executor/store.ts:195 | the receipt in memory becomes the durable one, or the durable one stays |
| TransactionSafety.WriteOpStep | src/executor/applier.ts:175-186 | one operation's write touches its own path only, and leaves it at its exact preimage or postimage |
| TransactionSafety.ApplyOneStep | src/executor/applier.ts:171-192 | one iteration leaves its path at preimage or postimage, and marks the operation only at its postimage |
| TransactionSafety.RollbackOneStep | src/executor/applier.ts:119-146 | undoing one operation leaves its path at preimage or postimage, and unmarks it only at its preimage |
| TransactionSafety.ApplySafe | src/executor/applier.ts:161-209 | one process, under any schedule of failures and crashes, keeps the durable invariant |
| TransactionSafety.CrashSafety | src/executor/applier.ts:161-209 | over any number of processes, every operation path is exactly its preimage or its postimage, nothing else changes, and an APPLIED receipt is finished |
| TransactionSafety.Completion | src/executor/applier.ts:161-209 | from every safe state one fault-free process ends APPLIED and finished if and only if no replacement keeps its bytes |
| TransactionSafety.SameBytesNeverComplete | src/executor/applier.ts:90-93 | a sound prepared plan that no fault-free process completes |
| TransactionRollback.RollbackBestEffort | src/executor/applier.ts:117-159 | on any worktree and any schedule, rollback touches marked, recognised targets only, and PREPARED means that all were undone |
| TransactionRollback.LostExactly | src/executor/applier.ts:80-104 | a target is ambiguous exactly when it holds neither what its operation found nor what it writes |
| TransactionRollback.RollbackExact | src/executor/applier.ts:117-159 | without faults: marked targets end at their exact preimage and unmarked, ambiguous ones stay marked and untouched, PREPARED if and only if none was ambiguous |
| TransactionRollback.FailedApplyUndone | src/executor/applier.ts:193-203 | a failed call restores the whole base worktree except possibly the path of the operation that failed, with what is left there |
| TransactionRollback.LastFaultIsUndone | src/executor/applier.ts:193-203 | when no fault is scheduled after the failing step, the call ends PREPARED with nothing marked and the base restored elsewhere |
| TransactionRollback.WrittenOperationStays | src/executor/applier.ts:117-122 | a run that ends PREPARED although its one operation has been written |
| Executor.WriteOp | src/executor/applier.ts:175-186 | in place, the write of one operation |
| Executor.ApplyOne | src/executor/applier.ts:171-192 | in place, one iteration of the apply loop |
| Executor.Restore | src/executor/applier.ts:106-134 | in place, writing a file back from its verified backup |
| Executor.RollbackOne | src/executor/applier.ts:119-146 | in place, one iteration of the rollback loop |
| Executor.Rollback | src/executor/applier.ts:117-159 | in place, the whole rollback, with unresolved paths counted |
| Executor.Apply | src/executor/applier.ts:161-209 | in place, the whole call with its catch block |
| Preparation.Preparer.Install | src/executor/applier.ts:26-36 | a backup name is taken once and never changes its bytes |
| Preparation.Preparer.Inspect | src/executor/applier.ts:61-72 | one target passes exactly when it is at its exact preimage with a bound payload, and is then backed up |
| Preparation.Preparer.Prepare | src/executor/applier.ts:51-78 | returns a stored receipt unchanged; otherwise, without faults, succeeds exactly on distinct operations with exact preimages; a receipt is stored only after every backup |
| Preparation.Preparer.Run | src/executor/applier.ts:51-78 | over any processes, failures and crashes, a stored receipt is an unmarked, attested and sound plan with every backup installed, and never changes |
| Preparation.PreparedIsSafe | src/executor/applier.ts:73-76 | the receipt that preparation stores is where the safety results start |
| Preparation.ResumeIsAttested | src/executor/transaction-authority.ts:37-60 | after any runs and crashes the durable receipt still passes both resume checks |
| Preparation.AttestedIsSound | src/executor/transaction-authority.ts:24-60 | conversely, a receipt that passes both checks is a sound plan against the worktree its own backups describe |
| Preparation.FreshIsExpected | src/executor/applier.ts:61-72 | the precondition of an operation, by kind: an absent path, or a bounded file with the named digest, and payload bytes with theirs |
| ResumeChecks.AssertBoundToPack | src/executor/transaction-authority.ts:37-45 | the first resume check, with its table by identifier, test by test |
| ResumeChecks.AttestBackups | src/executor/transaction-authority.ts:47-60 | the second resume check: every backup under its canonical name, within 8 MiB, with its bytes |
| Preparation.PackIsApplied | src/executor/applier.ts:51-209 | a prepared pack, applied without faults, ends APPLIED with every path as the pack says, new files in mode 0644 and replaced ones in their own, and every other path as it was |
| RepairSafety.WriteOpStep | src/executor/repair.ts:156-160 | one repair write leaves its path at its bound file or its postimage |
| RepairSafety.RestoreStep | src/executor/repair.ts:115-142 | writing a path back, from a generation backup or from the pack, gives its exact bound file |
| RepairSafety.ApplySafe | src/executor/repair.ts:146-167 | one process keeps the repair invariant: PROPOSED has touched nothing, APPLIED has reached everything |
| RepairSafety.RepairAtomicity | src/executor/repair.ts:132-167 | over any number of processes a repair that is PROPOSED again has restored the exact bound worktree, writes in flight included |
| RepairSafety.ThrownCall | src/executor/repair.ts:146-167 | what the worktree holds when a call throws, by how far it had come: bound files, postimages, or either |
| RepairSafety.ThrownCallRestores | src/executor/repair.ts:162-165 | whatever came before, a call that throws with a receipt back at PROPOSED has restored the exact bound worktree, even if its last write failed |
| RepairSafety.FaultFreeUndoAll | src/executor/repair.ts:132-144 | without faults the rollback returns, with every path at the exact file that was bound |
| RepairSafety.FailedRepairIsUndone | src/executor/repair.ts:162-165 | a repair whose loop failed, from PROPOSED or APPLYING, throws with a durable PROPOSED receipt in the stage of its review and the exact bound worktree, when no fault follows the one that failed it |
| RepairSafety.RepairCompletion | src/executor/repair.ts:146-167 | one fault-free process from PROPOSED or APPLYING completes if and only if no replacement keeps its bytes |
| RepairSafety.RepairIsApplied | src/executor/repair.ts:146-167 | a bound repair, applied without faults, ends APPLIED with every path as it says, every other path as bound, and the old verification gone |
| RepairSafety.SameBytesNeverComplete | src/executor/repair.ts:32-34 | a sound proposed repair that no fault-free process completes |
| RepairProcess.WriteOp | src/executor/repair.ts:156-159 | in place, the write of one repair operation |
| RepairProcess.ApplyOne | src/executor/repair.ts:152-161 | in place, one iteration of the repair loop |
| RepairProcess.RestoreOriginal | src/executor/repair.ts:115-122 | in place, rewriting the registered postimage |
| RepairProcess.Restore | src/executor/repair.ts:123-142 | in place, restoring one path |
| RepairProcess.UndoOne | src/executor/repair.ts:134-143 | in place, undoing one repair operation by classification |
| RepairProcess.Undo | src/executor/repair.ts:132-144 | in place, the backward loop of the rollback |
| RepairProcess.Apply | src/executor/repair.ts:146-167 | in place, the whole call with its catch block; what the call leaves is `RepairSafety.FailedRepairIsUndone` and `RepairSafety.RepairIsApplied` |
| RepairBinding.BindWeb | src/executor/repair.ts:109-111 | once the source is authorised (`ReviewAuthority.BindWeb`), binds exactly the well-formed, fresh, registered proposals, and what it binds is all-or-nothing |
| RepairBinding.Capture | src/executor/repair.ts:42-61 | installs a backup for exactly the files the pack cannot restore, and keeps every older backup |
| RepairBinding.ValidateOperations | src/executor/store.ts:84-101 | the checks on the operations of a repair, in one loop, accept exactly the well-formed ones |
| RepairBinding.BindableIs | src/executor/repair.ts:36-56 | by kind, which worktree an operation may be bound on, and which files get a backup |
| RepairBinding.FinishedModes | src/executor/change-set.ts:32 | a finished transaction has the modes a repair relies on |
| RepairBinding.GenerationModes | src/executor/change-set.ts:34-40 | a completed generation keeps those modes, so the next one can be bound |
| RepairBinding.SoundIsRegistered | src/executor/repair.ts:24-26 | looking a path up in a checked pack finds the file the transaction wrote |
| RepairBinding.ModelRepairIsSound | src/executor/repair.ts:63-71 | a model reviewer's repair, bound without backups on a finished transaction, is all-or-nothing too |
| ChangeSet.TransactionIsDescribed | src/executor/change-set.ts:34-40 | after the transaction alone the receipt gives the exact content and mode of every registered path |
| ChangeSet.EffectiveFinalExact | src/executor/change-set.ts:32-40 | after a generation the receipt describes the worktree if and only if every path it does not mention is at its registered postimage |
| ChangeSet.OneGenerationReplays | src/executor/change-set.ts:32-40 | for one final generation on a finished transaction the receipt replays to the worktree |
| ChangeSet.SecondGenerationForgets | src/executor/change-set.ts:33-40 | two sound generations after which the receipt describes the wrong file |
| ChangeSet.ChangedPathsExact | src/executor/change-set.ts:41-46 | the effective changed paths are the registered paths whose bytes, mode or presence differ from the base, strictly ascending by code units |
| ChangeSet.Attest | src/executor/change-set.ts:48-72 | yields the digest of the derived postimages exactly when Git's ascending paths and every file match |
| ChangeSet.AttestExact | src/executor/change-set.ts:68-72 | given Git's report, that is exactly: every registered path as derived, every other path as in the base |
| ChangeSet.DigestPinsFinalState | src/executor/change-set.ts:48-63 | equal attested digests mean the same run, the same registered paths and the same final files |
| Ordering.SortSorts | src/executor/change-set.ts:46-60 | sorting by path gives a permutation in which every path is a prefix of, or at its first difference smaller than, each later one |
| Ordering.LeqIsOrder | src/executor/change-set.ts:46-60 | the comparison of two paths: one is a prefix of the other, or the first code unit in which they differ is smaller |
| Ordering.SortedUnique | src/executor/change-set.ts:47 | two strictly sorted lists with the same paths are equal |
| GateEvidence.Store.Install | src/executor/evidence-store.ts:13-25 | installs one file under the name of its digest, never changes another, and refuses exactly oversized or mismatched bytes |
| GateEvidence.Store.RecordGate | src/executor/service.ts:157-159 | the receipt names evidence only after it is installed, so attestation holds at every moment |
| GateEvidence.Store.Clear | src/executor/repair.ts:166 | an applied repair drops the verification evidence, and attestation still holds |
| GateEvidence.Store.Attest | src/executor/evidence-store.ts:27-41 | accepts exactly when each gate with evidence has its file, within 512 KiB and with the bytes of its digest |
| GateEvidence.LossIsNoticed | src/executor/evidence-store.ts:27-41 | losing, altering or overgrowing the file of any one gate is noticed |
| GateEvidence.Store.Run | src/executor/evidence-store.ts:37-41 | after any gates, repairs, failures and crashes the next resume attests |
| ReviewAuthority.ModelHistoryAnchor | src/executor/review-authority.ts:11-38 | the walk finds exactly the digest in which an unbroken, rooted chain of generations ends |
| ReviewAuthority.HistoryIsAnchored | src/executor/store.ts:30-59 | every stored history is such a chain |
| ReviewAuthority.StoreCheckIsFullWalk | src/executor/store.ts:117-132 | on stored receipts the constant-time check equals the full walk or the final Web repair |
| ReviewAuthority.GapIsInvisibleToStore | src/executor/store.ts:128-131 | a receipt with a broken chain that the constant-time check alone would accept |
| ReviewAuthority.PublishGateExact | src/orchestration/executor-ready.ts:13-33 | the publish gate refuses exactly the stored READY receipts that rest on a Web generation and are not approved at that digest |
| ReviewAuthority.WebRepairIsNotPublished | src/orchestration/executor-ready.ts:13-33 | a stored READY receipt that the store and the service accept and the publish gate refuses |
| ReviewAuthority.ServiceGateExact | src/executor/service.ts:66-84 | publish implies service, and the service gate fails exactly when an archived generation has no successor |
| ReviewAuthority.BindKeepsValid | src/executor/repair.ts:73-113 | a bound Web repair may be stored if and only if the repair it archives has new evidence |
| ReviewAuthority.EvidenceCanBeReused | src/executor/repair.ts:97-104 | any three generations whose third repeats the evidence of the first are bound, completed and stored |
| ReviewAuthority.ReusedEvidenceBlocks | src/executor/store.ts:34-54 | a stored receipt from which proposals are still bound, and none of them can be stored |
| ReviewAuthority.StagesAreValid | src/executor/service.ts:87-103 | each of the six receipts written while a bound repair is applied, verified and declared READY may be stored |
| ReviewAuthority.CompleteKeepsValid | src/executor/service.ts:87-103 | completing the bound repair writes only storable receipts and ends READY at its digest, accepted by the service gate |
| ReviewAuthority.BindSucceeds | src/executor/repair.ts:85-113 | a fresh proposal is bound if and only if fewer than four generations exist |
| ReviewAuthority.GenerationBudget | src/executor/repair.ts:73-113 | generations with new evidence run until four exist; meanwhile receipts stay valid and authority reaches the newest digest |
| ReviewAuthority.Record.ArchiveVerified | src/executor/repair.ts:73-83 | in place, archiving the verified repair |
| ReviewAuthority.Record.Bind | src/executor/repair.ts:94-113 | in place, binding a Web repair, replaying it, or refusing |
| ReviewAuthority.Record.CompleteRepair | src/executor/service.ts:87-103 | in place, the repair applied, pinned, verified and declared READY, with each of the six receipts written on the way |
| StoreChecks.ValidateRepairHistory | src/executor/store.ts:30-59 | the loop over the archived generations, with the evidence seen so far, accepts exactly the valid histories |
| StoreChecks.ValidateRepair | src/executor/store.ts:72-115 | the repair checks, test by test, accept exactly the receipts whose repair is bound, placed and verified as the lemmas assume |
| StoreChecks.StoreCoversDigest | src/executor/store.ts:117-132 | the constant-time authority check of the store, test by test |
| StoreChecks.ValidateGateConsistency | src/executor/store.ts:134-162 | the gate checks, test by test |
| StoreChecks.AuthorityCoversDigest | src/executor/review-authority.ts:45-63 | the authority walk answers exactly for the digests that an approval, the own repair or the chain reaches |
| StoreChecks.WebRepairSourceAllowed | src/executor/repair.ts:85-92 | the sources from which a Web repair may start, test by test |
| StoreChecks.AssertReadyEvidence | src/executor/service.ts:66-84 | the service gate, test by test |
| StoreChecks.AssertReviewAuthority | src/orchestration/executor-ready.ts:13-33 | the publish gate, test by test |
| ReviewTurns.Unambiguous | src/executor/service.ts:44-49 | a reviewer that an earlier process may have started and this one does not answer for is not selected |
| ReviewTurns.PassedOver | src/executor/service.ts:44-49 | a started review is passed over exactly when the process answers for the other reviewer, and stays closed |
| ReviewTurns.CanBePassedOver | src/executor/service.ts:44-49 | a legacy receipt on which that happens |
| ReviewTurns.Uncalled | src/executor/service.ts:153-156 | a reviewer whose gate is opened has never been called |
| ReviewTurns.VerdictAccounts | src/executor/service.ts:157-159 | once a verdict is in the receipt no later process calls this reviewer |
| ReviewTurns.Service.Reserve | src/executor/service.ts:50-57 | a turn is reserved within the limit and written before the call; refused exactly when the time, the turns or the tokens are used up |
| ReviewTurns.Service.Record | src/executor/service.ts:28-43 | reported usage is refused unless every number and total is a safe integer, then added, checked against the budget and written |
| ReviewTurns.Service.ReviewOne | src/executor/service.ts:153-165 | at most one call, none if the approval is durable, and the gate opens only with a durable approval of the digest; when every write succeeds, the exact receipt and error of any answer |
| ReviewTurns.Service.Conclude | src/executor/service.ts:157-164 | what the answer leads to: approval, a bound repair completed or rejected, or ESCALATE_TO_WEB; a failing evidence installation leaves the reviewer closed without a verdict |
| ReviewTurns.Service.Select | src/executor/service.ts:115-136 | an interrupted review raises at once and touches nothing; otherwise the selection is durable |
| ReviewTurns.Service.Verify | src/executor/service.ts:138-143 | the transaction is finished, the digest pinned, and the result verified once; a rejected one ends ESCALATE_TO_WEB |
| ReviewTurns.Service.Attempt | src/executor/service.ts:107-168 | the whole try block; a clean run of a new receipt calls each selected reviewer once and ends READY |
| ReviewTurns.Service.Execute | src/executor/service.ts:105-174 | one process: an interrupted review ends FAILED, a refused resume ESCALATE_TO_WEB, or the receipt stays if that write fails; never a second call; when every write succeeds, the exact receipts and end of the whole process (`ReviewTurns.Executes`) |
| ReviewTurns.Service.Run | src/executor/service.ts:105-174 | over any processes each reviewer is called at most once, and calls, durable turns, limit and ceiling are ordered, and READY rests on the approval of every reviewer the run answers for, or on a repair |
| EventChain.AppendsKeepWindow | src/orchestration/ledger.ts:139-145 | after any appends the log is the newest 128 events of the full history, with true sequence numbers and the anchor of the last dropped one |
| EventChain.HistoryHolds | src/orchestration/ledger.ts:139-145 | every event of the history holds what was appended, in its place, with its kind cut to 128 characters, sealed over the hash of the one before |
| EventChain.Validate | src/orchestration/ledger.ts:80-88 | accepts exactly the logs in which every event continues the one before it |
| EventChain.AppendKeepsLinks | src/orchestration/ledger.ts:139-145 | an accepted log stays accepted and ends in the new event |
| EventChain.TipPinsWindow | src/orchestration/ledger.ts:78-88 | with a collision-free hash, equal counts and newest hash make accepted logs equal, anchor included |
| EventChain.TipPinsHistory | src/orchestration/ledger.ts:78-145 | the newest hash also pins every dropped event |
| EventChain.Push | src/orchestration/ledger.ts:139-145 | the loop that appends and compacts is the append of the lemmas |
| Controller.CreateIsGood | src/orchestration/ledger.ts:132-137 | a new ledger satisfies validation and the stronger invariant |
| Controller.CheckpointKeeps | src/orchestration/controller.ts:37 | a started attempt keeps the invariant, counters and caps |
| Controller.CompleteKeeps | src/orchestration/controller.ts:39 | a completed attempt is accepted exactly when its usage stays representable; where it moves the run is `RunProgress.SuccessMoves` |
| Controller.FailKeeps | src/orchestration/controller.ts:41 | a failed attempt is accepted exactly when its code can be stored, whatever the retry decision |
| Controller.ResumeKeeps | src/orchestration/controller.ts:22-35 | a resume is accepted exactly when the run is not overdue |
| Controller.StepExact | src/orchestration/ledger.ts:90-130 | exactly when an operation on a good ledger writes a ledger that validation accepts |
| Controller.CheckpointIsIdempotent | src/orchestration/controller.ts:37 | a repeated checkpoint finds its own attempt, any other is a conflict |
| Controller.ResultIsReportedOnce | src/orchestration/controller.ts:39-41 | a finished attempt cannot be reported again |
| Controller.CircuitHoldsUntilDeadline | src/orchestration/controller.ts:37-41 | an open circuit admits nothing before its deadline and one half-open trial after it |
| Controller.RunKeepsGood | src/orchestration/controller.ts:22-41 | every run keeps the stored ledger good, and counts exactly the attempts it started |
| Controller.NewRunIsBounded | src/orchestration/ledger.ts:132-137 | a new run starts each transition at most 4 times and makes at most 24 attempts |
| Controller.OverdueForever | src/orchestration/controller.ts:35 | a run paused past its retry deadline stays so under every later call |
| Controller.OverdueIsReachable | src/orchestration/controller.ts:22-41 | a concrete run that gets there |
| RunProgress.NewRunIs | src/orchestration/ledger.ts:132-137 | the whole ledger of a new run, with the limits of the product |
| RunProgress.SuccessMoves | src/orchestration/controller.ts:39 | a stored success moves the run to the transition its caller names, clears the retry, adds each part of the usage to its own total, and sets COMPLETE, BLOCKED, WAITING or ACTIVE by that transition and the new totals, unless the run is paused |
| RunProgress.FailureSchedules | src/orchestration/controller.ts:41 | a stored failure counts, keeps the transition, and waits for its delay, opens the circuit, or blocks the run, by the retry decision |
| RunProgress.NotedCounts | src/orchestration/ledger.ts:147-152 | a repeated diagnostic is counted where it stands, a new one goes to the end, and beyond 64 the oldest makes room |
| RunProgress.StrayReportIsRefused | src/orchestration/controller.ts:39-41 | a report of an attempt that is not the running one is refused and changes nothing |
| RunProgress.CheckpointStartsExactly | src/orchestration/controller.ts:37 | exactly when an attempt starts, and the whole stored ledger after it |
| RunProgress.PauseOnlyPauses | src/orchestration/controller.ts:34 | a pause changes status and reason only, and is refused exactly for a BLOCKED, FAILED or COMPLETE run |
| RunProgress.ResumeRestores | src/orchestration/controller.ts:22-35 | the status a resume restores, by attempt, next transition, limits and retry; a run past its deadline stays paused |
| RunProgress.RunFollowsSuccesses | src/orchestration/controller.ts:22-41 | over any run the next transition is the one named by the last stored success, and each total has grown by exactly what the successes reported |
| RunProgress.PlanIsCarriedOut | src/orchestration/controller.ts:37-39 | any plan of attempts within the attempt budget is carried out, and the run ends where its last leg leads |
| RunProgress.NewRunCanComplete | src/orchestration/controller.ts:37-39 | a new run on the path of the product ends COMPLETE |
| RunLedger.Validate | src/orchestration/ledger.ts:90-130 | the validating loops and tests, one by one, accept exactly the valid ledgers |
| RunLedger.Book.Append | src/orchestration/ledger.ts:139-145 | in place, the event and its time |
| RunLedger.Book.Note | src/orchestration/ledger.ts:147-152 | in place, the counted, bounded diagnostic |
| RunLedger.Book.Checkpoint | src/orchestration/controller.ts:37 | in place, starting an attempt |
| RunLedger.Book.Refuse | src/orchestration/controller.ts:37 | the refusals of a checkpoint, in order |
| RunLedger.Book.Succeed | src/orchestration/controller.ts:39 | in place, completing an attempt; what it stores is `RunProgress.SuccessMoves` |
| RunLedger.Book.FailWith | src/orchestration/controller.ts:41 | in place, failing an attempt |
| RunLedger.Book.Suspend | src/orchestration/controller.ts:34 | in place, pausing |
| RunLedger.Book.Continue | src/orchestration/controller.ts:35 | in place, resuming |
| AutopilotJob.InOrder | src/orchestration/autopilot-job.ts:343-420 | the milestones a trace has reached occur in it in the required order |
| AutopilotJob.SemanticReceiptValid | src/orchestration/autopilot-job.ts:137-153 | the semantic test of a receipt, test by test, accepts exactly the receipts the results speak of |
| AutopilotJob.ValidReceipt | src/orchestration/autopilot-job.ts:154-174 | the bounds and the semantic test together |
| AutopilotJob.ReadyPassedEverything | src/orchestration/autopilot-job.ts:343-405 | a READY_FOR_YOU receipt has exact execute, publish, draft, package and approve checks behind it, in that order |
| AutopilotJob.WriteExtendsSeen | src/orchestration/autopilot-job.ts:186-203 | an accepted write extends exactly the receipt its driver last saw |
| AutopilotJob.DriversKeepOneChain | src/orchestration/autopilot-job.ts:186-203 | any interleaving of drivers keeps one chain of valid receipts that only grows |
| AutopilotJob.SecondWriterIsRefused | src/orchestration/autopilot-job.ts:188-195 | of two drivers that saw one receipt only one can write |
| AutopilotDriver.FullMessageNeverFits | src/orchestration/autopilot-job.ts:259-263 | a failure with a full message cannot be recorded with its code |
| AutopilotDriver.ReasonFitsExactly | src/orchestration/autopilot-job.ts:259-263 | a failure can be recorded with its code exactly when both and the separator fit the reason |
| AutopilotDriver.RetryIsWritable | src/orchestration/autopilot-job.ts:237-264 | a retry, or giving up, can be stored exactly when the reason fits |
| AutopilotDriver.NextIsWritable | src/orchestration/autopilot-job.ts:343-386 | a passed service stage always leads to a storable receipt |
| AutopilotDriver.RevisedIsHonest | src/orchestration/autopilot-job.ts:412-420 | a finished revision can be stored exactly below the third |
| AutopilotDriver.DecidedIsCalm | src/orchestration/autopilot-job.ts:399-408 | an adopted verdict can be stored exactly below the fourth round; what it stores is in `AutopilotDriver.Driver.Adopt` |
| AutopilotDriver.Driver.Persist | src/orchestration/autopilot-job.ts:186-203 | stores the stamped receipt, or says why not; the stored receipt is sound whatever happens |
| AutopilotDriver.Driver.RetryOrStop | src/orchestration/autopilot-job.ts:230-265 | without faults, the stored receipt field by field: paused when interrupted, one attempt more and RUNNING after the deadline for a retryable failure below the sixth, NEEDS_YOU with the reason otherwise; throws exactly when the reason does not fit |
| AutopilotDriver.Driver.HonorDeadline | src/orchestration/autopilot-job.ts:267-288 | a persisted deadline is waited for, kept on interruption and cleared when it has passed, field by field |
| AutopilotDriver.Driver.Serve | src/orchestration/autopilot-job.ts:343-386 | without faults a passed service goes on from EXECUTE to PUBLISH, DRAFT_PR, PACKAGE_RESULT and WAIT_WEB with its attempts cleared and one cycle counted; an interrupted execution pauses, a stopped one needs the user; it throws exactly when it cannot record the outcome |
| AutopilotDriver.Driver.AwaitVerdict | src/orchestration/autopilot-job.ts:388-410 | the Web stage asks once and stores the pending review, then polls and adopts; only an empty poll of a pending review uses up nothing |
| AutopilotDriver.Driver.Answer | src/orchestration/autopilot-job.ts:396-409 | one poll of a pending review: no verdict changes nothing, an unavailable one is a failure of the stage, any other is adopted |
| AutopilotDriver.Driver.Adopt | src/orchestration/autopilot-job.ts:399-408 | without faults and below the fourth round: an exact approval returns READY_FOR_YOU at DONE with ASK_USER_TO_MERGE, an inexact one is a failure of the stage, a requested revision goes on RUNNING at REVISE, a closed review returns NEEDS_YOU; always with no pending review and one round more |
| AutopilotDriver.Driver.ReviseOnce | src/orchestration/autopilot-job.ts:412-420 | without faults a revision is counted once, up to the third, and goes on RUNNING at WAIT_WEB |
| AutopilotDriver.Driver.Iterate | src/orchestration/autopilot-job.ts:326-421 | what one undisturbed iteration stores, by the stage it starts in; every iteration that is not an empty poll of a pending review uses up budget, and it throws exactly when the outcome cannot be recorded |
| AutopilotDriver.Driver.Start | src/orchestration/autopilot-job.ts:313-323 | a ready receipt is returned, unchanged, only when its approval passes the exact check again; one that needs the user is returned; a new one starts at EXECUTE |
| AutopilotDriver.Driver.Drive | src/orchestration/autopilot-job.ts:297-422 | over a whole drive stored receipts are sound, and all iterations but the empty polls, those that create a final review included, are bounded by the cycle and retry budgets, so a drive that goes on has met empty polls for all iterations beyond them; a new run whose services pass and whose reviews ask for at most three revisions before they approve ends READY_FOR_YOU |
| ExecutionGates.StateMachine.Transition | src/execution/state-machine.ts:34-49 | moves exactly along the table |
| ExecutionGates.EnteredFrom | src/execution/state-machine.ts:5-24 | the table read the other way round: for each state, the states it is entered from |
| ExecutionGates.ReadyComesFromReview | src/execution/state-machine.ts:5-24 | READY is entered from a review state only, and VERIFICATION_FAILED never leads to BUDGET_EXHAUSTED |
| ExecutionGates.ReadyFollowsVerification | src/execution/state-machine.ts:5-24 | every path to READY verifies, and only reviews follow its last verification |
| ExecutionGates.BudgetTracker.Begin | src/execution/budget.ts:26-31 | a turn starts exactly within every limit it counts against, and limits are never passed |
| ExecutionGates.BudgetTracker.Record | src/execution/budget.ts:32-43 | measured tokens are added once, cached input apart; an overrun or a missing measure is refused, and what the budget has counted by then is exact |
| ExecutionGates.CompletedIsStorable | src/execution/execution-store.ts:169-181 | when a completed receipt may be stored |
| ExecutionGates.StoredNeedNotBeCompleted | src/execution/execution-service.ts:93-107 | a storable READY receipt that the completed-receipt check refuses |
| ExecutionGates.StoredIsCompleted | src/execution/execution-service.ts:93-107 | a storable READY receipt is completed exactly when each counted reviewer has a round and threads of its own |
| ExecutionGates.InvalidatedIsClosed | src/execution/review-gates.ts:52-56 | after invalidation no gate passes for any digest and any reviews |
| GateChecks.ApprovalHolds | src/execution/review-gates.ts:4-9 | the approval test, with its table of results, accepts exactly the valid approvals |
| GateChecks.AssertTerraCanStart | src/execution/review-gates.ts:11-15 | the gate after Terra, test by test |
| GateChecks.AssertSolCanStart | src/execution/review-gates.ts:17-22 | the gate before Sol, test by test |
| GateChecks.AssertSingleReviewerReady | src/execution/review-gates.ts:34-40 | the final gate of a single reviewer, test by test |
| GateChecks.AssertReadyForPublish | src/execution/review-gates.ts:42-50 | the final gate of both reviewers, test by test |
| GateChecks.ValidateCompletedReceipt | src/execution/execution-service.ts:93-107 | the check of a completed receipt, test by test |
| GateChecks.ValidateStoredReceipt | src/execution/execution-store.ts:169-181 | the reviewer and READY clauses of the store, test by test |
| ExecutionLoop.BothBecomeReady | src/execution/review-gates.ts:42-50 | two clear reviews by different fresh threads open the final gate |
| ExecutionLoop.Service.Transition | src/execution/execution-service.ts:113-118 | a transition follows the table, is journalled and written, and reaches READY only with a completed receipt within the token limits; otherwise nothing changes |
| ExecutionLoop.Service.Pay | src/execution/execution-service.ts:185-196 | a turn is reserved and durable before the agent is called |
| ExecutionLoop.Service.Charge | src/execution/execution-service.ts:214 | reported tokens go to the receipt, then to the budget; an overrun ends the run for its budget, and a report whose file fails in between slips past it |
| ExecutionLoop.Service.Report | src/execution/execution-service.ts:213-214 | the implementer's thread, event, tokens and report file; when a report slips |
| ExecutionLoop.ReportCanSlip | src/execution/execution-service.ts:214 | under any limits with room for one more implementation, a stored run and a report that slips |
| ExecutionLoop.Service.Prompt | src/execution/execution-service.ts:209-213 | one call, and one paid repair call after an invalid answer |
| ExecutionLoop.Service.Check | src/execution/execution-service.ts:219-233 | policy, then verification of the exact digest; a failure never goes on to review |
| ExecutionLoop.Service.Reject | src/execution/execution-service.ts:228-233 | without faults a failed verification leads to TERRA_FIXING, except exactly when the configured iterations are spent: then it raises in VERIFICATION_FAILED, never BUDGET_EXHAUSTED |
| ExecutionLoop.Service.Judge | src/execution/execution-service.ts:256-270 | approves only a fresh, exact, unmutated, well-formed approval, and approves every such one; without faults the exact receipt, budget and error of any review |
| ExecutionLoop.Service.Follow | src/execution/execution-service.ts:267-269 | a revision invalidates every gate and goes on in TERRA_FIXING, a replan ends WEB_REVIEW_REQUIRED, an escalation HUMAN_REQUIRED |
| ExecutionLoop.Service.ReviewSingle | src/execution/execution-service.ts:238-270 | the selected reviewer alone leads to READY, exactly on a clear approval when nothing fails |
| ExecutionLoop.Service.ReviewBoth | src/execution/execution-service.ts:256-285 | Terra, then Sol on Terra's approval, lead to READY |
| ExecutionLoop.Service.FollowWithSol | src/execution/execution-service.ts:272-285 | Sol's review, opened by Terra's approval |
| ExecutionLoop.Service.Iterate | src/execution/execution-service.ts:208-286 | one iteration keeps all invariants; a flawless one ends READY with two or three calls; without faults its exact outcome for any environment, step by step (`ExecutionLoop.Iterates`) |
| ExecutionLoop.FlawlessIteration | src/execution/execution-service.ts:208-286 | for each way of reviewing, an iteration that becomes READY under limits of three turns and no measured tokens |
| ExecutionLoop.Service.End | src/execution/execution-service.ts:299-302 | a terminal state is entered through the table or by force |
| ExecutionLoop.Service.Close | src/execution/execution-service.ts:299-302 | a run that is not settled gets the state of its error, a FAILED one too |
| ExecutionLoop.Service.Catch | src/execution/execution-service.ts:288-304 | a failed run ends in the terminal state of its code, through the table or by force; settled states are left alone; without faults the exact receipt and journal |
| ExecutionLoop.Service.Resume | src/execution/execution-service.ts:145-177 | a READY receipt with an unchanged worktree is returned as completed, and is never altered; without faults the exact receipt a run resumes with |
| ExecutionLoop.Service.Reenter | src/execution/execution-service.ts:187-190 | an unfinished check or review starts over from TERRA_FIXING, an interrupted run from CODEX_PREFLIGHT when its worktree is clean |
| ExecutionLoop.Service.Assess | src/execution/execution-service.ts:192-206 | the assessment turn, and where its answer leads the run |
| ExecutionLoop.Service.Select | src/execution/execution-service.ts:146-168 | the selected reviewer is bound or refused, then the early checks may raise |
| ExecutionLoop.Service.Execute | src/execution/execution-service.ts:137-307 | one process, with its budget restored from the receipt, keeps READY receipts and the turn limit; what a failing start makes of a FAILED receipt; a slipped report ends FAILED above the token limits; without faults the exact receipts, budget, calls and journal of the whole process (`ExecutionLoop.Executes`) |
| ExecutionLoop.Service.Run | src/execution/execution-service.ts:93-307 | over any processes and REVISE rounds READY means completed and within the token limits, calls never exceed durable turns nor those the limit, token limits are passed only in a run that ended for its budget or after a report that slipped, and the journal follows the table |
| ResourcePool.CountsAddUp | src/orchestration/resource-pool.ts:30-32 | every submitted job is in exactly one place |
| ResourcePool.Takes | src/orchestration/resource-pool.ts:65-72 | the oldest waiting job is younger than every started one and older than the rest |
| ResourcePool.Create | src/orchestration/resource-pool.ts:26-28 | a pool is made for exactly the bounds that are valid |
| ResourcePool.Pool.Snapshot | src/orchestration/resource-pool.ts:30-32 | bounds, busy slots while anything waits, and conservation of submissions |
| ResourcePool.Pool.Submit | src/orchestration/resource-pool.ts:34-53 | when a job starts, waits, or is turned away; nothing is overtaken, and what has settled stays as it is |
| ResourcePool.Pool.Execute | src/orchestration/resource-pool.ts:55-63 | a started job takes its place in the order of starts, even if it fails at once, and nothing settled changes |
| ResourcePool.Pool.Pump | src/orchestration/resource-pool.ts:65-72 | the oldest waiting jobs start, as many as there are slots, and nothing settled changes |
| ResourcePool.Pool.Finish | src/orchestration/resource-pool.ts:58-62 | the job is finished, its slot goes to the oldest waiting job, and nothing settled changes |
| ResourcePool.Pool.Abort | src/orchestration/resource-pool.ts:43-48 | an abort drops a waiting job and nothing else |
| ResourcePool.Pool.Live | src/orchestration/resource-pool.ts:34-72 | over any sequence of submissions, settlements and aborts every job settles at most once, and when nothing runs every job has settled |
| ResourcePool.Pool.NobodyIsLost | src/orchestration/resource-pool.ts:65-72 | with no slot in use nothing is left pending |
| DuplicateKeys.ScanIsExact | src/config/config-loader.ts:20-67 | on every printed JSON text, with any whitespace and escapes, the scan answers yes if and only if some object repeats a decoded name |
| DuplicateKeys.DecodeIsSpelling | src/config/config-loader.ts:30 | a literal is decoded to a name if and only if it spells that name: each code unit as itself, by its two-character escape, or by four hexadecimal digits in either case |
| DuplicateKeys.ScanFindsRepeatedNames | src/config/config-loader.ts:20-67 | on every printed JSON text the scan answers yes if and only if two members of one object, at any depth, spell the same name |
| DuplicateKeys.TwoMembersScan | src/config/config-loader.ts:39-52 | the text of an object with two numbers, code unit by code unit: yes exactly when the two names are the same |
| DuplicateKeys.TwoItemsScan | src/config/config-loader.ts:53-62 | the text of an array of two values: yes exactly when one of them repeats a name |
| DuplicateKeys.ValueScans | src/config/config-loader.ts:35-65 | a value is scanned to its end, or a duplicate in it is found |
| DuplicateKeys.QuoteCloses | src/config/config-loader.ts:23-34 | the end of a string literal is found behind every escape |
| DuplicateKeys.StringParses | src/config/config-loader.ts:23-34 | a literal is parsed to its decoded name and the index after it; which name that is, is `DuplicateKeys.DecodeIsSpelling` |
| DuplicateKeys.MembersScan | src/config/config-loader.ts:39-52 | the members of an object, with the names seen so far |
| DuplicateKeys.ItemsScan | src/config/config-loader.ts:53-62 | the items of an array |
| DuplicateKeys.SpaceIs | src/config/config-loader.ts:22 | the 25 code units that the scanner skips |
| DuplicateKeys.Scanner.Whitespace | src/config/config-loader.ts:22 | skips the maximal run of spaces |
| DuplicateKeys.Scanner.Name | src/config/config-loader.ts:23-34 | the string at the shared index, or the thrown error |
| DuplicateKeys.Scanner.Value | src/config/config-loader.ts:35-65 | the value at the shared index, on any text |
| DuplicateKeys.Scanner.Array | src/config/config-loader.ts:53-62 | the rest of an array |
| DuplicateKeys.Scanner.Object | src/config/config-loader.ts:39-52 | the rest of an object |
| DuplicateKeys.HasDuplicateJsonObjectKey | src/config/config-loader.ts:20-67 | ends on every text and answers as the scan does |
| EntryPolicy.TestsAreTheRule | src/intake/entry-policy.ts:99-134 | the tests on the four sets are the pairwise rule; the exact and normalised sets add nothing |
| EntryPolicy.State.BelowRegular | src/intake/entry-policy.ts:110-119 | whether a regular file accepted so far is a proper ancestor |
| EntryPolicy.State.HasDescendant | src/intake/entry-policy.ts:120-130 | whether an accepted entry lies below this path |
| EntryPolicy.State.Inspect | src/intake/entry-policy.ts:99-134 | accepts exactly the entries that clash with none before them, and remembers them |
| EntryPolicy.InspectAll | src/intake/entry-policy.ts:99-134 | an archive passes if and only if its entries are pairwise compatible |
| EntryPolicy.OrderDoesNotMatter | src/intake/entry-policy.ts:99-134 | acceptance does not depend on the order of the entries |
| ReviewerFreeze.StepAgrees | src/agent/reviewer-mode-store.ts:87-110 | no step of any process changes a frozen reviewer |
| ReviewerFreeze.FreezeAgreement | src/agent/reviewer-mode-store.ts:127-138 | over every interleaving and crash, whoever returns, returns its own proposal, equal to the frozen one |
| ReviewerFreeze.ReturnsAgree | src/agent/reviewer-mode-store.ts:127-138 | no two processes return different reviewers |
| ReviewerFreeze.EveryProcessIsAnswered | src/agent/reviewer-mode-store.ts:127-138 | a process that takes its steps, with any steps of others in between, returns its own proposal when that was frozen and is refused otherwise |
| ReviewerFreeze.RunFile.Link | src/agent/reviewer-mode-store.ts:95-106 | the link creates the file or leaves it as it is |
| ReviewerFreeze.Freeze | src/agent/reviewer-mode-store.ts:127-138 | one process among rivals: the first proposal is frozen, and it returns exactly when that is its own |

## Left out

- File descriptors, fsync, temporary names, symbolic links and path checks: a file effect is atomic.
- Git, GitHub, the reviewers, prompts and sandboxes: they answer arbitrarily. Git's list of changed paths is taken to be exact; Git itself records only two modes, so a change between two modes that it does not tell apart is outside the model.
- SHA-256, canonical JSON, base64 and ISO dates: function parameters, an explicit no-collision hypothesis, and integer time.
- Identity, format and length checks of receipts that no modelled step depends on; the cap of 32 rounds per gate; loose integer widths other than safe-integer totals of usage and tokens.
- Locks: one process at a time owns an executor receipt, a ledger or an execution. AUTOPILOT drivers are concurrent.
- The bundle, worktree, reference, agent and sandbox checks at the start of an execution appear only as the error they raise; the canonical-authority and resume-source checks of the executor as `ReviewTurns.Config.early`.
- `attestPublishedExecutorChangeSet` and post-publication repair: they depend on Git objects.
- `deriveNextTransition`, the transition runner, retry delays and failure classification: the retry decision is arbitrary.
- The attempt identifier of the ledger is the attempt itself, where the program uses a truncated digest of it.
- Receipts written before thread lists existed, which the execution service reads as one-element lists.
- JavaScript call-stack exhaustion: the duplicate-key scanner counts a stack overflow on deeply nested input as "no duplicate".
- Ordering.LeqIsOrder: paths are ordered by the characters of the model, which stand for the UTF-16 code units that JavaScript compares.
- Unicode: normalisation and lower-casing of ZIP entry names are parameters.
- ReviewTurns.Service.CompleteRepair: the repair it completes is modelled in `Repair`; here only its outcome matters, because it calls no reviewer.
- RepairBinding.BindWeb: the authority and staleness of the source are checked in `ReviewAuthority.BindWeb`, on the receipt's digests; the two halves of the program's function are not joined into one.
- RunLedger.Validate: identity, version and format checks of a ledger, which no operation changes.
- ReviewTurns.Service.Attempt: the resume attestations and the transaction appear only as the errors they may raise; what they check is in `Preparation`, `GateEvidence`, `ChangeSet` and `TransactionSafety`.
- ReviewTurns.Service.Select: the stored reviewer profile is compared, but which profile it is does not matter.
- ResourcePool.Pool.Abort: a signal shared by several waiting jobs is several aborts in a row; a job that submits to the pool, or fires a signal, in its own synchronous part is not represented.
- ReviewTurns.Service.Run: binding the review strategy in mid-run is not modelled; the program refuses it once a review has begun.
- ExecutionLoop.Service.Run: the iterations of one process may be cut off at any length; the implementation, review and time limits are those of one configuration.
- AutopilotDriver.Driver.Drive: the number of empty verdict polls is not bounded, because the program does not bound it.
- Configuration validators, output schemas, log redaction, the command line, smart context, benchmark scoring and inbox scanning: branch-by-branch checks without a deep property.
