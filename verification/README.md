# Local Hand, verified in Dafny

Local Hand lets a controller hand small tasks to workers through a shared Git branch, and lets a
broker run larger jobs under supervision and archive their evidence.  This project models the
protocol cores of that system and proves what they keep over every run.

Verify everything with `dafny verify dfyconfig.toml`.

## What is modelled

**The Git mailbox** (`Mailbox*.dfy`, `ControlDirectory.dfy`).  `Mailbox` is a state machine: the
branch (a head and three maps), the checkouts of all workers and controllers, and each worker's
state root (receipts, outbox, conflict markers, quarantine).  A step is one durable write, one
accepted push (compare-and-swap on the head, with or without an acknowledgement), one entry into a
handler or return from it, or one loss of everything in memory.  `MailboxWorker` and `MailboxController` are the two
processes as loops over these steps, with all other parties acting in between and a failure
possible anywhere.  The strongest results are about a set `own` of task ids that no foreign writer
touches; foreign writers may add whatever they like about other ids, and the closed system is the
case where `own` holds all ids.

**The broker** (`Broker*.dfy`).  A step is one committed transaction, one change of the process's
memory, or a crash.  Client calls, the delivery guard and the coordinator interleave freely, and
the coordinator works on a snapshot of the rows that may be out of date.  `BrokerService` is the
class with the code's loops; each method is proved to take steps of the machine.

**Budgets and roots** (`Budget.dfy`, `Paths.dfy`, `BootstrapRoots.dfy`, `RootLeases.dfy`,
`RootTable.dfy`, `BindExecution.dfy`).  Shares of one operation's budget, one-use directory slots
on a permanent lease table whose keys are plain strings, and the rewriting of planned paths.

**The archive** (`Archive*.dfy`).  Staged requests, an independent reservation with receipts, and a
ledger with idempotency keys whose answers may be lost.

**The bytecode reader** (`Octets.dfy`, `Marshal*.dfy`).  A recursive reader of CPython marshal data
with a table of back references, proved against the digest of the fully unfolded value.

SHA-256 over canonical JSON is a free constructor (`Mailbox.Digest`, allocation and budget
digests), so it is injective by construction.  Where bytes are hashed (the bytecode reader) the
hash is a parameter; what must not collide is stated as `MarshalValue.NoCollision`, over the finite
set of strings that the two values at hand hash.

## What the proofs show about the code

- Revoking any principal closes every operation admitted so far, not only that principal's: the
  generation counter is global (`BrokerLaunches.RevocationClosesAll`).
- The coordinator writes cancellations from a snapshot without reading again.  This is safe, for
  the reason stated in `BrokerSafety.BlockOk`.
- The closing sum check of a budget reservation never refuses anything
  (`Budget.GrantedExactlyWhenDue`).
- The archive's law of one artifact per task is false once a task has lost its directory, its
  reservation and its task-scoped ledger entries; bindings of the first format never had such
  entries.  `ArchiveSafety.ExposedTaskSplits` gives the run, and `ArchiveSafety.LawHoldsExactly`
  shows that this is the only way it fails.

## Model

| member | source | states |
|---|---|---|
| MarshalValue.EquivalentSameDigest | tools/local_hand/bytecode.py:53-97 | values equal up to the order of frozenset members have one digest, for every hash |
| MarshalValue.ImageInjective | tools/local_hand/bytecode.py:53-91 | the bytes hashed for a node determine its tag, its own data and its child digests up to frozenset order |
| MarshalValue.DigestDeterminesValue | tools/local_hand/bytecode.py:53-97 | equal digests mean equal values up to frozenset order, unless two of the strings actually hashed collide |
| MarshalReader.ParseValue | tools/local_hand/bytecode.py:36-97 | parsing consumes input and strictly lowers the remaining budget, keeps the reference table well formed, and yields a well-formed value |
| MarshalReader.ParseContainer | tools/local_hand/bytecode.py:68-80 | an announced size that is negative or beyond the remaining budget or input is refused, and the members of an accepted container fit what was left of both |
| MarshalReader.Reader.Take | tools/local_hand/bytecode.py:26-31 | negative or overlong sizes are refused, otherwise exactly the next bytes are consumed |
| MarshalReader.Reader.Value | tools/local_hand/bytecode.py:36-97 | the reader accepts exactly what the unfolding parser accepts and returns the digest of the unfolded value, although it keeps digests of shared values only |
| MarshalReader.Reader.Values | tools/local_hand/bytecode.py:76-91 | a run of members yields the digests of the unfolded members, in order |
| MarshalReader.Reader.Body | tools/local_hand/bytecode.py:54-93 | the same for the body of each tag, with a flagged value entered in the table only when complete |
| MarshalReader.Reader.StringBody | tools/local_hand/bytecode.py:62-67 | short, long, interned and ASCII spellings give the digest of one text, and undecodable text is refused |
| MarshalReader.Reader.ContainerBody | tools/local_hand/bytecode.py:68-80 | tuples keep their order, frozensets are hashed in sorted order of digests, and an oversized container is refused when nothing but its size has been read |
| MarshalReader.Reader.CodeBody | tools/local_hand/bytecode.py:81-87 | all fields of a code object reach the digest |
| MarshalReader.CodeFingerprint | tools/local_hand/bytecode.py:100-116 | the fingerprint is the digest of the fully unfolded code value, and exists exactly when the whole input unfolds to one |
| MarshalReader.FingerprintIdentifiesCode | tools/local_hand/bytecode.py:100-116 | two accepted streams have the same fingerprint if and only if they unfold to the same code up to frozenset order, barring collisions |
| MarshalFlat.FlatRoundTrip | tools/local_hand/bytecode.py:36-97 | writing a value without references and reading it back gives the value |
| MarshalFlat.SharingIsInvisible | tools/local_hand/bytecode.py:42-52 | an accepted stream and its rewriting without references and flags have the same fingerprint |
| MailboxSafety.ExecutedAtMostOnce | tools/local_hand/worker.py:692-742 | over every run, with crashes anywhere, also inside a handler, and any change of the branch, the handler is entered at most once per task id and state root, also when the id returns with another digest, and never without a receipt |
| MailboxSafety.MatchedStep | tools/local_hand/worker.py:737-742 | every return from a handler belongs to an entry into it, and no entry returns twice |
| MailboxSafety.TrackedStep | tools/local_hand/worker.py:632-742 | each durable step keeps memory and disk in step and every handler run behind a receipt |
| MailboxSafety.RecordsOnlyClimb | tools/local_hand/worker.py:622-737 | over every run a receipt goes absent, intent, result; results, broken receipts, markers and quarantined files are never rewritten or removed |
| MailboxSafety.BranchOnlyGrows | tools/local_hand/worker.py:520-555 | with any number of parties pushing, retrying and losing acknowledgements, no accepted push alters or removes a record |
| MailboxSafety.TaskIdBoundForever | tools/local_hand_connect/controller.py:479-533 | a task id on the branch is bound to one task for good |
| MailboxSafety.EvidenceIsConserved | tools/local_hand/worker.py:464-555 | every canonical result ever put in an outbox is still there, on the branch with equal content, or in quarantine |
| MailboxSafety.OutboxStep | tools/local_hand/worker.py:509-555 | one step leaves a canonical outbox file, finds it on the branch, or moves it unchanged to quarantine |
| MailboxSafety.QueuedConflictIsValid | tools/local_hand/worker.py:492-506 | every conflict record that a worker queues passes its own validation, never reports success, and equals the durable marker it was made for |
| MailboxClosed.ClosedStep | tools/local_hand/worker.py:660-742 | for ids that no foreign writer touches, every step of anyone keeps the invariant that ties branch, receipts, outboxes, memory and handler log together |
| MailboxClosed.Impossible | tools/local_hand/worker.py:622-735 | for such ids no collision, marker, quarantine or resend is ever reached, whatever happens to other ids |
| MailboxClosed.NoConflictEver | tools/local_hand/worker.py:509-555 | in every run there is no conflict record, no marker and no quarantined file about such ids |
| MailboxClosed.SuccessMeansExecutedOnce | tools/local_hand_connect/controller.py:604-632 | a success that any controller reads for such an id, from any checkout of any run, was returned by the handler for exactly that task, which was entered once and returned nothing else, and its checkout holds no conflict for it |
| MailboxClosed.ResultIsEarned | tools/local_hand_connect/controller.py:542-558 | the same from any state that satisfies the invariant, for any earlier copy of the branch |
| MailboxRecovery.SettledStep | tools/local_hand/worker.py:719-742 | a step of anyone leaves a result that receipt and branch agree on as it is, in both |
| MailboxRecovery.OutcomeLostStep | tools/local_hand/worker.py:698-708 | once the outcome of an intended task is lost, nothing but `outcome_unknown` is ever stored for it |
| MailboxRecovery.SettledIsHonest | tools/local_hand/worker.py:696-723 | a settled task shows the result that had reached the outbox, or `outcome_unknown` when none had |
| MailboxPoll.OnwardStep | tools/local_hand/worker.py:509-742 | no step of anyone, fast-forward writers included, withdraws a published, recorded or set-aside result from a worker's view |
| MailboxPoll.HandledIsSettled | tools/local_hand/worker.py:660-742 | a handled task without foreign writers has one result, the same in receipt and branch, and nothing left to send |
| MailboxPoll.SettledForEver | tools/local_hand/worker.py:660-742 | over every run from there receipt and branch keep that very result |
| MailboxPoll.PollIsHonest | tools/local_hand/worker.py:698-742 | from any crashed state, a continuation that handles a task nobody else writes about ends in the result that was stored before, or in `outcome_unknown` if the crash fell between intent and outbox |
| MailboxPoll.RecoveryIsHonest | tools/local_hand/worker.py:698-742 | the same over every run from empty state roots, wherever it is cut, with foreign writers on all other tasks |
| MailboxWorker.FreeIndex | tools/local_hand/worker.py:464-473 | the search for a quarantine name ends, with the least unused index |
| MailboxWorker.WorkerProcess.Act | tools/local_hand/worker.py:96-132 | one durable write is one enabled step, booked in the run |
| MailboxWorker.WorkerProcess.SyncMailbox | tools/local_hand/worker.py:424-440 | a completed sync shows at least the branch as it was when it began, and leaves the state root alone |
| MailboxWorker.WorkerProcess.Quarantine | tools/local_hand/worker.py:464-489 | exactly one outbox file moves to a free name |
| MailboxWorker.WorkerProcess.Collide | tools/local_hand/worker.py:492-548 | a collision is recorded before the local file leaves the outbox |
| MailboxWorker.WorkerProcess.Reconcile | tools/local_hand/worker.py:522-539 | a file whose target exists is acknowledged, set aside or put in quarantine, and a canonical result is then published or its conflict on record |
| MailboxWorker.WorkerProcess.Push | tools/local_hand/worker.py:540-555 | success means the file is published and only then removed; every failure, a lost acknowledgement included, keeps it |
| MailboxWorker.WorkerProcess.PublishFile | tools/local_hand/worker.py:516-555 | at most four attempts, each on a fresh checkout, end with the file published, set aside or kept |
| MailboxWorker.WorkerProcess.PublishOutbox | tools/local_hand/worker.py:509-555 | after success no canonical result waits, and each that waited is on the checked-out branch or has a conflict on record |
| MailboxWorker.WorkerProcess.RecoverConflict | tools/local_hand/worker.py:597-619 | a marked task is never run again and its conflict record is queued and published |
| MailboxWorker.WorkerProcess.SetAside | tools/local_hand/worker.py:622-648 | marker, then conflict record, then publication; success leaves the task handled |
| MailboxWorker.WorkerProcess.Deliver | tools/local_hand/worker.py:632-635 | receipt after outbox, then publication; success leaves receipt and published result equal or a conflict on record |
| MailboxWorker.WorkerProcess.Perform | tools/local_hand/worker.py:738-742 | the handler is entered after the intent and may be cut off before it returns |
| MailboxWorker.WorkerProcess.Complete | tools/local_hand/worker.py:738-742 | whatever the handler returns or raises is stored, delivered and handled |
| MailboxWorker.WorkerProcess.Run | tools/local_hand/worker.py:733-742 | intent before handler, handler before outbox |
| MailboxWorker.WorkerProcess.Answer | tools/local_hand/worker.py:722-732 | a lost outcome is answered with `outcome_unknown` and an inadmissible task with a rejection, without a handler run |
| MailboxWorker.WorkerProcess.SendAgain | tools/local_hand/worker.py:719-721 | a stored but unpublished result is sent as it was stored |
| MailboxWorker.WorkerProcess.Adopt | tools/local_hand/worker.py:698-729 | a receipt without a result is completed from the published one |
| MailboxWorker.WorkerProcess.ProcessTask | tools/local_hand/worker.py:679-742 | every branch of the task's decision leaves it handled or fails |
| MailboxWorker.WorkerProcess.ProcessOnce | tools/local_hand/worker.py:660-742 | a poll that returns normally has handled every task for its node that was on the branch when it began, whatever others pushed meanwhile, and is honest about each that nobody else wrote about; a poll that fails loses memory only |
| MailboxController.ControllerProcess.SubmitTask | tools/local_hand_connect/controller.py:473-533 | submitted and already-present bind the id to exactly this task, an id conflict to another one; any other answer claims nothing, after at most four pushes |
| MailboxController.ControllerProcess.Push | tools/local_hand_connect/controller.py:497-532 | an acknowledged push added this task under a free id |
| MailboxController.ControllerProcess.WaitForResult | tools/local_hand_connect/controller.py:604-640 | what is returned is bound to task, node, action and admitted provenance and is no success if the same checkout holds a conflict; if nobody else wrote about the id, a success is the result of the one handler run |
| MailboxController.ControllerProcess.CallTask | tools/local_hand_connect/controller.py:664-687 | a returned result answers a task that is on the branch |
| ControlDirectory.Directory.WriteAll | tools/local_hand/mailbox_safety.py:176-184 | however few bytes each write takes, success means all of them, in order |
| ControlDirectory.Directory.Create | tools/local_hand/mailbox_safety.py:154-204 | the target appears complete or not at all, no existing file is replaced even if it appears late, and success means the name was free |
| BrokerSafety.OutcomeMeaning | tools/local_hand_jobs/broker.py:1211-1231 | an outcome is definite exactly when side effects are known; success needs a clean exit of uncancelled work or an attested report of this very execution |
| BrokerSafety.FinishOk | tools/local_hand_jobs/broker.py:1143-1268 | an accepted exit proof ends the phase, keeps a frozen outcome and leaves a well-formed record |
| BrokerSafety.BlockOk | tools/local_hand_jobs/broker.py:1347-1362 | ending a cancelled row from an outdated snapshot overwrites nothing that was settled since |
| BrokerSafety.BarredOk | tools/local_hand_jobs/broker.py:483-526 | the recovery barrier keeps frozen outcomes, terminal rows, handles and deliveries |
| BrokerSafety.DoubtOk | tools/local_hand_jobs/broker.py:617-630 | recording uncertainty keeps a frozen outcome and never reopens an operation |
| BrokerSafety.ExhaustOk | tools/local_hand_jobs/broker.py:632-660 | an exhausted budget keeps what was observed and ends the row |
| BrokerSafety.StaleStep | tools/local_hand_jobs/broker.py:1270-1290 | while the coordinator holds a snapshot, its rows change only by cancellation, revocation and deliveries |
| BrokerSafety.RowsStep | tools/local_hand_jobs/broker.py:370-1375 | every transaction keeps all records well formed and lets each only move on |
| BrokerLaunches.LaunchedOnceInOrder | tools/local_hand_jobs/broker.py:998-1141 | in every run each stage of each execution is launched at most once, preparation before helper before result reader, and a helper only after its preparation was delivered |
| BrokerLaunches.NoLaunchOnceClosed | tools/local_hand_jobs/broker.py:370-459 | from any state in which an operation is closed nothing of it is launched in any continuation |
| BrokerLaunches.NoLaunchAfterCancel | tools/local_hand_jobs/broker.py:370-399 | once a cancellation is committed nothing of the operation is launched, whatever follows |
| BrokerLaunches.NoLaunchAfterRevoke | tools/local_hand_jobs/broker.py:446-459 | once a revocation is committed nothing of any operation admitted before is launched, whatever follows |
| BrokerLaunches.RevocationClosesAll | tools/local_hand_jobs/broker.py:446-459 | revoking anyone closes every operation admitted so far |
| BrokerLaunches.OnlyFirstEvidenceAfterRecovery | tools/local_hand_jobs/broker.py:676-756 | whatever is launched after a recovery is the evidence of work frozen before the last recovery and never launched before it |
| BrokerLaunches.RestartPutsUpBarrier | tools/local_hand_jobs/broker.py:461-530 | after a restart nothing is launched for an operation under way before its barrier is in the event table |
| BrokerLaunches.OutcomesAreFinal | tools/local_hand_jobs/broker.py:617-660 | in every continuation a frozen business outcome is the record's outcome and a terminal record does not change at all |
| BrokerLaunches.PhasesInOrder | tools/local_hand_jobs/broker.py:866-996 | in every reachable state a terminal operation has a definite outcome, business follows an exited preflight with stable inputs, evidence follows a freeze, and sealed evidence rests on a confirmed publication |
| BrokerLaunches.SlotsAreBounded | tools/local_hand_jobs/broker.py:662-674 | in every reachable state at most `max_running` operations hold a slot, and every launched phase without accepted exit proof is among them |
| BrokerLaunches.PhaseEnds | tools/local_hand_jobs/broker.py:1298-1330 | an issued phase ends only with an exit proof, which is logged |
| BrokerLaunches.InvRun | tools/local_hand_jobs/broker.py:83-1375 | the whole invariant holds over every interleaving |
| BrokerService.Service.Cancel | tools/local_hand_jobs/broker.py:370-399 | an unfinished operation is closed for good, a finished one untouched |
| BrokerService.Service.Revoke | tools/local_hand_jobs/broker.py:446-459 | every operation in the ledger is closed for good |
| BrokerService.Service.Submit | tools/local_hand_jobs/broker.py:268-305 | a bound id or a revoked principal changes nothing, otherwise exactly one new row is admitted |
| BrokerService.Service.OpenRound | tools/local_hand_jobs/broker.py:401-444 | a round is admitted only when the job is quiet and no other round is open |
| BrokerService.LatestEvents | tools/local_hand_jobs/broker.py:717-721 | the scan returns the last freeze and the last barrier of the operation, or that there is none |
| BrokerService.HistoryAllows | tools/local_hand_jobs/broker.py:727-756 | the history is accepted exactly when no evidence precedes the barrier and intents follow it only once committed |
| BrokerService.Service.FirstRecovered | tools/local_hand_jobs/broker.py:676-756 | the decision read off the event table is the specified one, both ways |
| BrokerService.BarRows | tools/local_hand_jobs/broker.py:480-530 | the loop over the rows bars exactly those under way |
| BrokerService.Service.Recover | tools/local_hand_jobs/broker.py:461-580 | start-up puts a barrier on every operation under way, starts nothing, and observes again exactly the issued phases |
| BrokerService.Service.MayStart | tools/local_hand_jobs/broker.py:866-915 | a start passes exactly when uncancelled, in a free slot, authorized, in order, first-time and, after recovery, a first evidence |
| BrokerService.Service.Start | tools/local_hand_jobs/broker.py:866-996 | a row that must wait is left untouched; the runner holds an execution only after its intent was the first thing logged; success means phase, owner and observation are in place, and what was raised left either nothing or a durable intent |
| BrokerService.Service.MustWait | tools/local_hand_jobs/broker.py:873-886 | a start returns quietly exactly when the row is cancelled, no slot is free, or the observed job still runs |
| BrokerService.Service.MayDeliver | tools/local_hand_jobs/broker.py:1005-1113 | a delivery passes exactly when the machine enables it, never for a closed operation |
| BrokerService.Service.Guard | tools/local_hand_jobs/broker.py:998-1141 | a launch follows its own committed intent, and a refusal changes nothing |
| BrokerService.Service.Complete | tools/local_hand_jobs/broker.py:1143-1268 | an accepted proof ends observation and phase together, a raised one changes nothing |
| BrokerService.Service.BudgetBlocked | tools/local_hand_jobs/broker.py:632-660 | true only if the row has ended |
| BrokerService.Service.EndCancelled | tools/local_hand_jobs/broker.py:1347-1362 | a cancelled row with nothing under way ends |
| BrokerService.Service.TickRow | tools/local_hand_jobs/broker.py:1275-1375 | one row's turn touches the memory of that row only and ends it if it was cancelled and idle |
| BrokerService.Service.Tick | tools/local_hand_jobs/broker.py:1270-1375 | after a pass, with clients acting in between, no operation that was cancelled and idle when it began waits to be started |
| Budget.AllocatedLimits | tools/local_hand_jobs/budget.py:88-98 | the loop divides the three shared limits among the phases so that the shares of all phases fit |
| Budget.SharesFit | tools/local_hand_jobs/budget.py:247-248 | the wall, CPU and log shares of any set of granted phases fit the admitted budget |
| Budget.ReserveKeepsAccount | tools/local_hand_jobs/budget.py:260-308 | reserve and commit re-establishes the state's validity, dates the grant by the clock and leaves earlier grants, boot, start and deadline alone |
| Budget.GrantedExactlyWhenDue | tools/local_hand_jobs/budget.py:260-308 | on a valid state a phase gets its grant if and only if the budget is fundable and the phase is due, new and in time |
| Budget.AccountsStayValid | tools/local_hand_jobs/budget.py:203-308 | after any sequence of attempts at any times the state validates, all grants share boot, start and deadline, and none ever changed |
| Budget.GrantedOnce | tools/local_hand_jobs/budget.py:293-294 | a granted phase is refused for good |
| Budget.PhaseWithinOperation | tools/local_hand_jobs/budget.py:157-174 | a phase ends after it was reserved and no later than the operation or its wall share; time remains exactly within that interval on the same boot |
| Budget.GrantOutlastsGrace | tools/local_hand_jobs/budget.py:299-302 | a new grant leaves its helper more time than the stop grace takes |
| Budget.SubstagesExact | tools/local_hand_jobs/budget.py:177-200 | if one substage can be funded all can, and their CPU shares are positive and add up exactly to the phase's CPU |
| Paths.PrefixRange | tools/local_hand_jobs/bootstrap_roots.py:175-179 | the range from `key/` to `key0` in binary order holds exactly the strings that begin with `key/` |
| Paths.UnderIsAncestor | tools/local_hand_jobs/bootstrap_roots.py:171-174 | looking up the listed ancestors finds exactly the roots that the path lies under |
| Paths.PairInjective | tools/local_hand_jobs/bootstrap_roots.py:153-159 | device and inode can be read back from the decimal resource name |
| BootstrapRoots.CheckSlot | tools/local_hand_jobs/bootstrap_roots.py:83-92 | one slot passes exactly when its roots are admitted and apart from all seen before and from each other |
| BootstrapRoots.ValidateSlots | tools/local_hand_jobs/bootstrap_roots.py:60-93 | a pool is accepted exactly when its ids differ and all its roots are valid, inside their parents, outside forbidden roots and nowhere overlapping or aliased |
| RootLeases.FreeIsApart | tools/local_hand_jobs/bootstrap_roots.py:166-180 | a root that the table calls free neither equals, contains, lies in nor shares an inode with any leased root |
| RootLeases.ApartIsFree | tools/local_hand_jobs/bootstrap_roots.py:166-180 | and nothing apart from all leased roots is refused |
| RootLeases.RootAvailable | tools/local_hand_jobs/bootstrap_roots.py:168-179 | the lookups decide exactly that |
| RootLeases.FirstFree | tools/local_hand_jobs/bootstrap_roots.py:244-246 | the first free slot of the pool, or proof that none is free |
| RootTable.OneMore | tools/local_hand_jobs/bootstrap_roots.py:244-271 | a free slot of any pool is separate from all allocations ever made, so the new allocation is too |
| RootTable.Table.Others | tools/local_hand_jobs/bootstrap_roots.py:192-198 | ordinary leases come and go without touching a consumed slot |
| RootTable.Table.StillReserved | tools/local_hand_jobs/bootstrap_roots.py:183-189 | a grant counts as reserved exactly while it is valid and all its leases name its allocation |
| RootTable.Table.Inherited | tools/local_hand_jobs/bootstrap_roots.py:232-240 | an earlier slot is taken over exactly if its grant is valid, still leased to this allocation and unchanged in the pool |
| RootTable.Table.Consume | tools/local_hand_jobs/bootstrap_roots.py:267-271 | the slot is leased under a new allocation that is separate from all others, and no lease is lost |
| RootTable.Table.Reserve | tools/local_hand_jobs/bootstrap_roots.py:192-274 | repeating a call gives the same grant and no lease, business shares the preflight allocation, any other first call consumes a slot never used before, refusals change nothing |
| RootTable.GrantMovesApart | tools/local_hand_jobs/bootstrap_roots.py:120-127 | every valid grant has source and target roots that do not overlap |
| BindExecution.SuffixKept | tools/local_hand_jobs/bootstrap_roots.py:291-296 | a path in a planned root keeps its suffix, wherever that root is listed |
| BindExecution.OutsideStays | tools/local_hand_jobs/bootstrap_roots.py:296 | a string in no planned root stays as it is |
| BindExecution.OrderIrrelevant | tools/local_hand_jobs/bootstrap_roots.py:291-302 | the order of the roots does not matter, throughout the tree |
| BindExecution.TreeLeavesRoot | tools/local_hand_jobs/bootstrap_roots.py:291-302 | if planned and granted roots are different places, no string of the rewritten tree refers to a planned root |
| BindExecution.BoundPlanLeavesRoots | tools/local_hand_jobs/bootstrap_roots.py:303-308 | so no generated field of a bound plan does |
| BindExecution.RoundTrip | tools/local_hand_jobs/bootstrap_roots.py:291-302 | exchanging sources and targets restores the tree |
| BindExecution.BindIdempotent | tools/local_hand_jobs/bootstrap_roots.py:277-308 | binding twice is binding once, and inputs are never touched |
| BindExecution.BindOrderIrrelevant | tools/local_hand_jobs/bootstrap_roots.py:277-308 | two listings of the same moves bind a plan alike |
| BindExecution.BindRoundTrip | tools/local_hand_jobs/bootstrap_roots.py:277-308 | binding and binding back gives the plan |
| ArchiveSafety.OneArtifactWhileSheltered | tools/local_hand_jobs/artifact_archive.py:507-650 | over every run, with lost answers and any losses of directories, reservations, receipts and database entries that never take all three from a task at once, a task has one artifact and one version; formats may be mixed |
| ArchiveSafety.OneArtifactWhileReserved | tools/local_hand_jobs/artifact_archive.py:507-543 | reservations alone are enough, for either format and even with older databases |
| ArchiveSafety.OneArtifactWhileRemembered | tools/local_hand_jobs/artifact_archive.py:530-543 | with second-format bindings an intact ledger alone is enough, even if directory and reservation are both lost |
| ArchiveSafety.LawHoldsExactly | tools/local_hand_jobs/artifact_archive.py:530-543 | from a state on, whatever calls are made, every task keeps one artifact and one version if and only if no task with committed operations has lost its directory, its reservation and its task-scoped entries, which is what the check of a new task looks at |
| ArchiveSafety.ExposedTaskSplits | tools/local_hand_jobs/artifact_archive.py:321-346 | for every task that has lost all three, one call commits a second artifact and a second version |
| ArchiveSafety.SameIdentities | tools/local_hand_jobs/artifact_archive.py:609-612 | a call succeeds, a run with crashes, lost answers and losses follows, another call for the task succeeds: both returned the same artifact and version |
| ArchiveSafety.SameIdentitiesWhileReserved | tools/local_hand_jobs/artifact_archive.py:507-543 | the same for every run in which reservations survive |
| ArchiveSafety.SameIdentitiesWhileRemembered | tools/local_hand_jobs/artifact_archive.py:530-543 | the same for every run over second-format bindings in which the ledger survives |
| ArchiveSafety.ReturnedForEver | tools/local_hand_jobs/artifact_archive.py:578-612 | what a call returned stays on record over every run |
| ArchiveSafety.ConfirmedIsNeverRepeated | tools/local_hand_jobs/artifact_archive.py:373-430 | an operation that is confirmed in every state of a run, by its own receipt or, for a create, by that of the append, is not executed in it, even if the database has lost it |
| ArchiveService.Store.EnsureOperation | tools/local_hand_jobs/artifact_archive.py:373-430 | success means ledger and receipt hold exactly this request; nothing confirmed or present is executed |
| ArchiveService.Store.Resume | tools/local_hand_jobs/artifact_archive.py:578-612 | a call takes only working steps of the machine; from whatever an earlier call left, success returns identities executed for this task, equal to every earlier answer for it, and the files first staged |
| ArchiveService.Store.ArchiveResult | tools/local_hand_jobs/artifact_archive.py:615-644 | a call takes only working steps of the machine; the first snapshot is kept, other evidence is refused, and success gives the one answer for this task |
| ArchiveService.Store.Lose | tools/local_hand_jobs/artifact_archive.py:507-543 | losses between calls that expose no task with a past leave all answers valid |
| ArchiveService.Store.Answer | tools/local_hand_jobs/artifact_archive.py:609-612 | an answer agrees with every answer ever given for the task |
| ArchiveRecovery.VerifyRequests | tools/local_hand_jobs/artifact_archive.py:841-898 | a recovery point is accepted if and only if every task is in order and every committed operation resolves to a retained task |
| ArchiveRecovery.CountDecides | tools/local_hand_jobs/artifact_archive.py:897-898 | as many distinct verified keys as the ledger has operations means all of them |
| ArchiveRecovery.CommittedIsRetained | tools/local_hand_jobs/artifact_archive.py:841-898 | in an accepted point each committed operation is byte for byte a request retained in some task's files |

## Left out

- Git, SSH, subprocesses, signals, cgroups, file descriptors, fsync and inode probing: they are steps that may fail or be cut off.
- JSON, ZIP, UTF-8 file handling and regular-expression shape checks: canonical JSON is taken as injective, and the schema verdict on a task is the field `admissible`.
- Read failures that abort a poll without classifying the file: they are failures between two steps.
- The texts in `details` and `error` of results, the spelling of quarantine suffixes, and the sorted order in which outbox and task files are visited; the order visited is arbitrary here.
- Case folding of provenance digests: provenance is compared as one value.
- Clocks and backoff of polling: a wait looks a bounded number of times; budgets keep a clock.
- Task handlers: a handler returns any result for its task, or raises.
- Quota binding, quota closure, stopped completion and evidence recovery of the broker: the model is the path without quota admission, in which these report nothing to do.
- Resource leases of ordinary operations, capacity and rate limits, the evidence catalog and seal registration details: a completed evidence phase either confirms its publication or does not.
- Authorization policy, plan digests and manager bindings at start and delivery: they can only refuse, and the model does not rely on their refusing.
- Budget comparison inside the recovered-evidence check, and its limit of fifteen history events: both can only refuse.
- Database file identity, filesystem binding and restored-database binding of the archive: a put-back database is a ledger that has lost entries.
- Blob payloads of the archive: the files of a version are one value inside its append request.
- The comparison of bootstrap grants with the last reservation event, and the maximum lengths of identifiers.
- `tools/q2_namespace_delivery.py`, installers, acceptance programs and Windows branches.
- MailboxWorker.WorkerProcess.ProcessOnce: assumes fast-forward history during the poll, since a rewritten branch can withdraw what was published.
- BindExecution.RoundTrip: asks that a string outside the planned roots is not already inside a granted root, because such a string could not be told apart afterwards.
