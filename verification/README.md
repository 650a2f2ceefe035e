# Panewire protocols in Dafny

Panewire is a hub and its nodes: nodes type messages into agent panes, the hub decides
who owns a lane, raises alerts, wakes and puts to sleep a burst machine, and an assistant
answers for what was delivered. The hard part is a set of small protocols over shared
state: a table, a file or a map that several goroutines, processes or machines change
step by step, with crashes and lost replies in between.

Each protocol is a state and atomic steps: one lock region, one store call or one answer
from outside is one step, so a run is any interleaving of steps. The properties hold for
every run. Where the Go code is a method that updates fields, or a loop, there is a class
or a method that is proved to make exactly the step the state machine takes.

| files | protocol |
|---|---|
| BusyRelay, BusyRelayInvariants, BusyRelayProofs, BusyRelayRuns, BusyRelayRestart, BusyRelaySettling, BusyRelayStranding, BusyRelayScenarios, RelayManager | a node's held messages: waits, releases, retries, edits, cancels, resends, crash and restart |
| RelayBatch | how the rows of one release are cut into injects |
| ControlPlane, ControlPlaneRuns, ControlPlaneAnswers, ControlPlaneWrap, ControlPlaneHub | transfer of the authority lanes, with its epoch and its eight-record history |
| HubAlert, HubAlertProofs, HubAlertNotices, HubFailover, HubAlertBoard | alert debounce, notifications sent outside the lock, failover events |
| LaneEventLog, EmitFiles | event files published by concurrent producers without a lock |
| OutboxProtocol, OutboxPass | draining owed notifications to the hub |
| TokenBucket | the write limiter and a node's publish budget |
| PagedScan, Progress, ProgressBetween | what may be answered about a lane from bounded reads |
| Burst, BurstHub | wake and sleep decisions and the leases that keep the target awake |
| Names, Options | name patterns, the byte order of names, values that may be missing |

What the proofs found, beyond the properties that hold outright:

- A retry deletes a held row and then holds it again. A crash in between loses the row on
  the node without a report (`BusyRelayScenarios.LostInRetryWindow`); a held row survives
  every other step that does not report its end (`BusyRelayRuns.KeptExactly`).
- A resend of a held event reads the pane's rows before it takes the lock. A reading
  without rows that is registered after another row was held ends that row's wait
  (`BusyRelayStranding.OvertakenStrands`); one that misses only some rows keeps the pane
  awake until the last row it names is cancelled (`BusyRelayStranding.PartialStrands`).
  These two steps are exactly the ones that can leave a pane with held rows and an empty
  list (`BusyRelayRuns.StepExactly`), `BusyRelayProofs.ReplayExact` says when the pane
  still wakes, and a row once stranded stays so until somebody outside acts on its pane
  (`BusyRelayStranding.StrandedForGood`).
- Attempts are stored so that the typing limit outlives restarts, but a crash between an
  inject and its settlement leaves no trace of it. The limit of three injects grows by
  one for each such crash, two for a directive (`BusyRelayRuns.TypedAtMost`), and both
  bounds are reached for every number of crashes (`BusyRelayScenarios.TypedTight`,
  `BusyRelayScenarios.DirectiveTight`).
- A row whose inject may have reached the pane is dropped so that it is not typed twice.
  That holds exactly as long as no crash comes before the drop
  (`BusyRelaySettling.MaybeTypedOnce`, `BusyRelayScenarios.MaybeRetyped`).
- An operator may edit a row that is in flight. Its delivered record then names the old
  text, so a restart under apply keeps the row and it can be typed again
  (`BusyRelayScenarios.RetypedAfterEdit`). A restart retires a recorded row exactly when
  its text is the one its release took (`BusyRelayRestart.RestoreDooms`), and a retry
  puts the old text back (`BusyRelayRestart.RetryUndoesEdit`).
- An operator may also cancel a row that is in flight. The retry that follows a failed
  inject holds it again (`BusyRelayScenarios.CancelUndone`), and nothing else brings a
  cancelled row back (`BusyRelayRestart.RevivedExactly`).
- A restart deletes a row it retires before it acknowledges it. A crash in between loses
  the acknowledgement (`BusyRelayRestart.AckLostExactly`, `BusyRelayRestart.AckLostForGood`).
- The comment at control_plane.go:345-350 says a request that aged out of the history is
  refused. That is so until the 64-bit epoch has gone all the way round
  (`ControlPlaneRuns.ExactlyOnce`), and no longer (`ControlPlaneWrap.AppliedTwice`).
- A delivered incident need not get a recovery. A notice sent but committed after the
  incident closed owes none (`HubAlertProofs.SentNotRecorded`), and any problem
  observation takes an owed recovery away, even one within the grace period that opens no
  incident (`HubAlertProofs.RecoveryLost`). `HubAlertProofs.RecoveryExactly` says when the
  recovery is told.
- Two lane-event files can share a key when the earlier record does not fit the 16 KiB
  read cap (`LaneEventLog.OversizedRepeats`), or when a directory listing shows a file
  published while it runs and not an earlier one with the key (`LaneEventLog.GapRepeats`).
  No other step gives a key a second readable file (`LaneEventLog.ScanExactly`), and in
  every run whose listings miss nothing only an unreadable file is repeated
  (`LaneEventLog.OneFilePerKey`).
- The write limiter does not always enforce its budget. Above 1024 identities it forgets
  those idle for ten minutes and meets them again with a full burst. Every run stays
  within burst + rate * time exactly when the burst is at most ten times the rate per
  minute (`TokenBucket.ConfiguredExactly`, `TokenBucket.BudgetBroken`); under the same
  condition, and no other, forgetting changes no answer (`TokenBucket.ForgetsUnseenExactly`).
- The publish budget of a node follows a wall clock back and refills when it goes forward
  again. On any clock it admits at most 320 plus twice the forward steps
  (`TokenBucket.PublishesOnAnyClock`), which no window length bounds
  (`TokenBucket.NodeClockStep`).
- The reads behind an answer about a lane are not one snapshot. Done still proves that the
  lane had no relay row and owed nothing up to the reading of the outbox
  (`ProgressBetween.DoneProves`). Delivered does not prove that nothing waits: a row
  drained between the reads can still wait behind a later row that landed
  (`ProgressBetween.DeliveredTooSoon`), and only such a row
  (`ProgressBetween.DeliveredProves`).
- A burst policy with distinct machines puts the target to sleep exactly after an idle
  period (`Burst.SleepsExactly`); one that names a single machine as source and target
  can put it to sleep right after a busy report (`Burst.SameMachineSleepsBusy`).

## Model

| member | source | states |
|---|---|---|
| BusyRelayRuns.NoRowStranded | busy_relay.go:472-522 | in every run without a step that empties or overtakes a list, a stored row is owned by a release, or its pane has a live wait or an operation that still owes it an arm, and the pane's list names a row (with `each`, that very row) or a release of the pane will make the list again |
| BusyRelayRuns.QuietNodeWaits | busy_relay.go:634-675 | once only waits are left in such a run, every stored row has a wait on its pane that was not cancelled, behind a list that names a row (with `each`, that row) |
| BusyRelayRuns.StepExactly | busy_relay.go:611-628 | any step from such a state keeps it so exactly when it is neither a resend registering a reading without rows (with `each`, without some loose row) of a pane that has loose rows and no release, nor a cancel of the only listed row of such a pane |
| BusyRelayRuns.RunAwake | busy_relay.go:611-675 | lists and waits stay in order over every run without such a step |
| BusyRelayProofs.ArmExactly | busy_relay.go:634-675 | after an arm something wakes for the pane exactly when its list is not empty, or a thread other than its registered wait cares for it |
| BusyRelayProofs.ReplayExact | busy_relay.go:611-628 | after a resend has registered the rows it read and armed the pane, something wakes for the pane exactly when the reading named a row, or a thread other than the pane's registered wait and the resend cares for it |
| BusyRelayProofs.CancelExact | busy_relay.go:1335-1371 | after a cancel and its arm of a pane that listed the row, exactly when the list named another row or another thread cares |
| BusyRelayStranding.OvertakenReached | busy_relay.go:386-428 | a run without such a step in which row 1 is held, found by its resend and cancelled, the resend reads the empty pane, and row 2 is held and waited for |
| BusyRelayStranding.OvertakenStrands | busy_relay.go:611-675 | registering and arming that reading is such a step and strands row 2: stored, in no delivery, not listed, and no thread will take it or list it |
| BusyRelayStranding.PartialReached | busy_relay.go:611-628 | a reading that names row 1 is registered after row 2 was held: the pane still wakes, its list no longer names row 2 |
| BusyRelayStranding.PartialStrands | busy_relay.go:1335-1371 | cancelling row 1 then strands row 2 |
| BusyRelayStranding.StrandedForGood | busy_relay.go:634-919 | a stranded row stays stranded over every run, until a hold or a resend on its pane, a cancel of the row or a restart |
| BusyRelayRuns.OneOwner | busy_relay.go:860-919 | in every run the row sets of concurrent releases are pairwise disjoint and `inflight` is exactly their union |
| BusyRelayRuns.FinishAccounts | busy_relay.go:947-1052 | a release that ends gave every row it took one fate: delivered, dropped with its reason, held again one attempt older, or left stored; the tables say the same unless an operator cancelled the row, and but for a text an operator gave it meanwhile; a delivered row, and one dropped because it may be in the pane, was typed |
| BusyRelayRuns.TypedAtMost | busy_relay.go:1147-1196 | over its whole life on the node, restarts included, an event is typed at most three times and once more for every crash that fell between an inject of it and its settlement; a directive at most twice, and twice more for every such crash |
| BusyRelayScenarios.TypedTight | busy_relay.go:1147-1196 | for every k a run with k such crashes that types a row 3 + k times |
| BusyRelayScenarios.DirectiveTight | busy_relay.go:1170-1183 | for every k a run with k such crashes that types a directive 2 + 2 * k times |
| BusyRelaySettling.SettlesExactly | busy_relay.go:1184-1236 | in every reachable state a typed row has exactly one end: held again exactly when the inject was rejected, the row is no directive and has an attempt left; recorded exactly when the inject landed and its nonce was seen; dropped in every other case |
| BusyRelaySettling.MaybeTypedOnce | busy_relay.go:582-595 | over any run, a row whose inject may have reached the pane is never typed again and is in no group a release may type, unless the node crashes before the row is settled |
| BusyRelayScenarios.MaybeRetyped | busy_relay.go:1200-1205 | a run with that crash after which the row can be typed again |
| BusyRelaySettling.TypedByInject | busy_relay.go:1170-1183 | nothing but an inject that holds the row adds to how often it was typed |
| BusyRelaySettling.FinishedForGood | busy_relay.go:582-595 | a row its release is done with and that is not stored is never typed again, over any run |
| BusyRelaySettling.DropEnds | busy_relay.go:587-595 | a drop deletes the row without a record, reported as unproven unless the inject was rejected |
| BusyRelaySettling.RetryEnds | busy_relay.go:542-557 | a rejected row with an attempt left is stored again as it was taken, one attempt older |
| BusyRelaySettling.RecordEnds | busy_relay.go:1237-1254 | a landed row is recorded with the pane and text its release took, then deleted; an earlier record stays |
| BusyRelaySettling.RetypesExactly | busy_relay.go:1174-1183 | an inject is repeated at once exactly when it went out once and its rows are directives |
| BusyRelaySettling.TypedOfferEnds | busy_relay.go:437-456 | a fresh row typed at once is recorded exactly when it landed, with its own pane and text, and is never stored |
| BusyRelaySettling.HeldOfferEnds | busy_relay.go:472-522 | a fresh row for a busy pane is stored as it came, listed for its pane, and the pane is owed an arm |
| BusyRelaySettling.RejectedOfferEnds | busy_relay.go:437-456 | a row whose first inject was rejected is held as typed once and one attempt old, and is no directive |
| BusyRelayRuns.KeptExactly | busy_relay.go:542-557 | a row that is held or being held again survives a step exactly when the step is not a cancel, a drop or an exhausted retry of it, nor a crash between its delete and its new hold |
| BusyRelayRuns.HeldRowKept | busy_relay.go:542-595 | over any run without such a step the row stays held, recorded as delivered, or about to be held again |
| BusyRelayRestart.ProvenSurvivesCrash | busy_relay.go:1237-1254 | from the verdict that proves a row to the end of its release, a crash leaves the row in the held table, in the delivered record, or in both |
| BusyRelayRestart.RestoreDooms | busy_relay.go:1413-1450 | under apply a restart retires exactly the recorded rows whose stored text is still the text that the release which recorded them took |
| BusyRelayRestart.RetiredExactly | busy_relay.go:1438-1457 | the pass over the restored rows deletes a recorded row exactly then, and keeps an edited one deliverable |
| BusyRelayRestart.UneditedRetired | busy_relay.go:1443-1457 | a recorded row nobody edited after its release took it is retired |
| BusyRelayRestart.DeliveredNeverTyped | busy_relay.go:1237-1254 | under apply an event with a delivered record that was not edited after its release took it is in no group a release may type, restarts included |
| BusyRelayRestart.EditedByEdit | busy_relay.go:1310-1333 | nothing but an edit that changes the text of a row in flight or recorded marks it as edited |
| BusyRelayRestart.NeverEdited | busy_relay.go:1310-1333 | so in a run without such an edit the record is the last word about the row |
| BusyRelayRestart.TakenByTake | busy_relay.go:890-904 | the text a recorded row is compared with is the one stored when a release took the row, and changes only when another release takes it before it is recorded |
| BusyRelayRestart.RetryUndoesEdit | busy_relay.go:542-557 | a retry holds the row again with the text its release took, whatever an operator made of it while it was in flight |
| BusyRelayRestart.RevivedExactly | busy_relay.go:542-557 | a row an operator cancelled is out of the store, and a step puts it back exactly when it is the new hold of its own retry |
| BusyRelayScenarios.CancelUndone | busy_relay.go:1335-1371 | a run that cancels a row whose inject is out and ends with the retry holding it again |
| BusyRelayScenarios.RetypedAfterEdit | busy_relay.go:1443-1448 | under apply a row edited in flight, recorded with its old text and caught by a crash before its delete, can be typed again |
| BusyRelayScenarios.RetypedWithoutApply | busy_relay.go:1449-1453 | without apply a row already recorded as delivered can be typed again after a crash |
| BusyRelayRestart.RestartAcksOnce | busy_relay.go:1450-1479 | when a restart is over each row it had to retire was acknowledged exactly once and is no longer held |
| BusyRelayRestart.AckLostExactly | busy_relay.go:1457-1459 | a restart that crashes leaves a row it had to retire acknowledged, or to be retired by the next restart, exactly when it did not crash between the row's delete and its acknowledgement |
| BusyRelayRestart.AckLostForGood | busy_relay.go:1457-1459 | after a crash in between no run ever brings the acknowledgement, or the row back |
| BusyRelayScenarios.AckLost | busy_relay.go:1413-1459 | a run that stands between the delete and the acknowledgement of a row it retires |
| BusyRelayRestart.AckedForGood | busy_relay.go:1457-1498 | a row is acknowledged at a restart once only, over all later restarts, and never held or in flight again |
| BusyRelayRestart.GoneForGood | busy_relay.go:1457-1498 | a row that left the node, with no retry still to hold it, never comes back and is never acknowledged later, over any run |
| BusyRelayRuns.RunInv | busy_relay.go:740-919 | every run keeps ownership, row fates, typing bounds, receipts and recovery, whatever the resends register |
| BusyRelayRuns.KeptStep | busy_relay.go:1147-1268 | one step, any event: a row is not lost unless the step reports it |
| BusyRelayScenarios.LostInRetryWindow | busy_relay.go:542-557 | a run that ends in a crash between the delete and the new hold of a retry: the row is in neither table and nothing reported it |
| BusyRelayProofs.KeepOfferHold | busy_relay.go:472-522 | holding a fresh row keeps the invariants |
| BusyRelayProofs.KeepOfferTyped | busy_relay.go:437-456 | a fresh row typed at once keeps the invariants, landed or not |
| BusyRelayProofs.KeepArm | busy_relay.go:634-675 | arming a pane keeps the invariants: the registered wait ends, and a new one starts whenever rows are registered |
| BusyRelayProofs.KeepTakeAll | busy_relay.go:890-904 | a release takes every stored row of its pane that is not in flight, and no other release loses or shares a row |
| BusyRelayProofs.KeepTakeWorking | busy_relay.go:740-816 | a working wake takes the directives, or everything once expired, or only re-arms |
| BusyRelayProofs.TakeAllExactly | busy_relay.go:890-904 | a release owns exactly the stored rows of its pane that were not in flight |
| BusyRelayProofs.TakeWorkingExactly | busy_relay.go:740-816 | a working wake owns exactly the directives among them, or all of them once its wait ran out |
| BusyRelayProofs.KeepDropRow | busy_relay.go:1081-1086 | expiring a lease inside a release keeps the invariants |
| BusyRelayProofs.KeepLeaveRow | busy_relay.go:1006-1013 | a row left stored by a release keeps the invariants |
| BusyRelayProofs.KeepHoldAgain | busy_relay.go:538-557 | taking an unverifiable row out of the store before it is held again keeps the invariants |
| BusyRelayProofs.KeepTypeGroup | busy_relay.go:1170-1173 | typing a group of rows of one kind keeps the typing bound |
| BusyRelayProofs.KeepTypeAgain | busy_relay.go:1174-1183 | the one immediate retry of a directive keeps the typing bound |
| BusyRelayProofs.KeepSettleRetry | busy_relay.go:542-557 | deleting a row to retry it keeps the invariants while attempts remain (when it is retried: SettlesExactly) |
| BusyRelayProofs.KeepReinsert | busy_relay.go:542-557 | holding it again, one attempt older, keeps the invariants while the release still owns it |
| BusyRelayProofs.KeepRearmRetry | busy_relay.go:520-521 | the arm that follows the new hold keeps every pane covered |
| BusyRelayProofs.KeepSettleDrop | busy_relay.go:587-595 | dropping a typed row keeps the invariants (when it is dropped, and as what: SettlesExactly, DropEnds) |
| BusyRelayProofs.KeepSettleRecord | busy_relay.go:1244-1247 | recording a delivery while the held row still exists keeps the invariants |
| BusyRelayProofs.KeepSettleDelete | busy_relay.go:1254-1254 | deleting the held row after the record keeps the invariants |
| BusyRelayProofs.KeepFinish | busy_relay.go:882-906 | ending a release frees exactly its rows; each of them is still registered by the reconcile that follows |
| BusyRelayProofs.KeepReconcile | busy_relay.go:831-856 | reconciling a pane leaves exactly its stored rows registered and the pane still owed an arm |
| BusyRelayProofs.KeepRearmCheck | busy_relay.go:911-918 | a release re-arms its pane whenever rows are registered for it |
| BusyRelayProofs.KeepCancel | busy_relay.go:1335-1371 | cancelling a row, in flight or not, keeps the invariants for every other row, the lists too unless it takes away the only listed row |
| BusyRelayProofs.KeepReplayRead | busy_relay.go:619-622 | reading the pane's rows outside the lock keeps the invariants |
| BusyRelayProofs.KeepEdit | busy_relay.go:1310-1333 | editing the text of a held row, in flight or not, keeps the invariants |
| BusyRelayProofs.KeepReplayWrite | busy_relay.go:611-628 | registering a resend's reading keeps every invariant of the rows, and the lists unless the reading was overtaken |
| BusyRelayProofs.KeepCrash | busy_relay.go:1373-1404 | a crash at any point leaves a store a restart can start from, each row within its typing bound |
| BusyRelayProofs.KeepRestore | busy_relay.go:1373-1404 | restoring registers every stored row for its pane |
| BusyRelayProofs.KeepRestoreRow | busy_relay.go:1434-1461 | judging one restored row keeps the invariants of the others |
| BusyRelayProofs.KeepRestoreAck | busy_relay.go:1458-1459 | the acknowledgement of a retired row keeps the count at one |
| BusyRelayProofs.KeepRestoreDone | busy_relay.go:1481-1498 | resuming arms every restored pane |
| RelayManager.Manager.RowsForPane | busy_relay.go:860-861 | lists exactly the stored rows of a pane |
| RelayManager.Manager.Hold | busy_relay.go:485-509 | the lock region of a hold makes exactly the machine step: insert if new, register every stored row of the pane |
| RelayManager.Manager.Arm | busy_relay.go:634-675 | the lock region of an arm makes exactly the machine step |
| RelayManager.Manager.HeldSnapshot | busy_relay.go:860-872 | the stored rows of the pane that are not in flight |
| RelayManager.Manager.MarkInflight | busy_relay.go:876-880 | adds exactly the taken rows to the rows in flight |
| RelayManager.Manager.FinishInflight | busy_relay.go:882-888 | removes exactly the taken rows |
| RelayManager.Manager.Release | busy_relay.go:890-904 | the lock region of a release makes exactly the machine step |
| RelayManager.Manager.SplitDirectives | busy_relay.go:757-767 | the directives among the rows, and whether any row is none |
| RelayManager.Manager.Remaining | busy_relay.go:796-801 | the list of the pane without the rows being delivered |
| RelayManager.Manager.ReleaseWorking | busy_relay.go:740-809 | the lock region of a working release makes exactly the machine step |
| RelayManager.Manager.ReconcileHeld | busy_relay.go:831-856 | the pane lists exactly its stored rows, or has no list |
| RelayManager.Manager.Edit | busy_relay.go:1310-1333 | an edit with a text of a stored event makes exactly the machine step, any other changes nothing |
| RelayManager.Manager.Cancel | busy_relay.go:1343-1365 | the row leaves the store and every list, and the panes that listed it are returned |
| RelayManager.ListingIsRegistered | busy_relay.go:1349-1362 | those panes are the ones the machine owes an arm |
| RelayBatch.BatchGroups | busy_relay.go:1123-1145 | an order-preserving partition into non-empty groups of one kind, any group of two or more composed to at most 8192 bytes, in which no group could have taken the first row of the next |
| RelayBatch.Compose | busy_relay.go:1093-1121 | builds the text a group is typed as, and its length is the one the cut is made by |
| RelayBatch.TextIs | busy_relay.go:1093-1121 | the length formula of a group is the length of its composed text |
| RelayBatch.RowIsTyped | busy_relay.go:1093-1121 | every row of a group is in the composed text: its nonce, a space and its own text |
| RelayBatch.CutUnique | busy_relay.go:1123-1145 | only one partition meets these requirements |
| RelayBatch.LongAlone | busy_relay.go:1138-1141 | a row with text over 8192 bytes is alone in its group |
| RelayBatch.TextGrows | busy_relay.go:1093-1121 | a batch renders at least as long as its prefix of two or more rows |
| RelayBatch.Immediate | busy_relay.go:1273-1280 | a group is immediate exactly when it is non-empty and all directives |
| ControlPlaneRuns.ExactlyOnce | control_plane.go:345-379 | two applied transfers with one id and one fingerprint have at least 2^64 commits between them, the first included: an evicted request is stale until the epoch counter has gone round |
| ControlPlaneRuns.Evicted | control_plane.go:412-420 | a second transfer with an id is applied only after eight others pushed the first record out |
| ControlPlaneWrap.AppliedTwice | control_plane.go:405-408 | with exactly 2^64 commits from its first application on, a request is applied a second time, so the bound is tight |
| ControlPlaneWrap.AskStep | control_plane.go:345-421 | endless prepare, commit and ack with twelve ids in turn: each is applied, whatever is in the history |
| ControlPlaneRuns.CommitsOften | control_plane.go:95-112 | among any four consecutive applied transfers there is a commit |
| ControlPlaneRuns.EpochCounts | control_plane.go:405-410 | the epoch has grown by exactly the number of commits, modulo 2^64 |
| ControlPlaneRuns.HistoryIsLast | control_plane.go:412-420 | the history is always the last eight records, oldest first |
| ControlPlaneRuns.RetryReplays | control_plane.go:345-357 | a retry made before eight more transfers were applied gets the first response and changes nothing, whatever the epoch, routes, policy and outside world have become |
| ControlPlaneRuns.PrintMeans | control_plane.go:279-328 | two requests have one fingerprint exactly when they ask for the same thing, whatever the order of the lanes |
| ControlPlaneRuns.AbsentIsFalse | control_plane.go:305-315 | a claim left out and a claim set to false are the same claim |
| ControlPlaneRuns.AppliedExactly | control_plane.go:345-421 | a transfer is applied exactly when it is valid, its id is in no kept record, the policy knows its lanes as the bundle, its epoch and routes are current, the transition is allowed, nothing is in flight at handover, a commit is cleared, and the file was written |
| ControlPlaneAnswers.AnswersExactly | control_plane.go:345-436 | every answer has its reason: each refusal code is given exactly when its check is the first to fail, a transfer that passes all is applied and answered unless the write failed, and one that repeats its newest kept record is answered |
| ControlPlaneAnswers.RepeatTold | control_plane.go:351-357 | a repeat is told the newest kept record with its id, field by field |
| ControlPlaneAnswers.ClearedMeans | control_plane.go:473-530 | a commit is cleared exactly when all five claims are made, the readiness seam passes each of its five checks once, and both target machines are known |
| ControlPlaneAnswers.RunRounds | control_plane.go:95-112 | the applied transfers of any run from rest come in rounds: prepare, commit, ack or drain, handover-ready, commit, ack |
| ControlPlaneAnswers.NextMeans | control_plane.go:95-112 | which action follows which state, and the state it leaves |
| ControlPlaneRuns.AnswerTells | control_plane.go:549-560 | the answer to an accepted transfer tells the control block and the routes the file now holds, lanes in name order, and readiness only for a commit |
| ControlPlaneRuns.RunLoads | control_plane.go:597-651 | every control block a run writes passes the strict loader again |
| ControlPlaneRuns.CommitMoves | control_plane.go:539-547 | a commit moves exactly its two lanes, both to the new owner, and no other route |
| ControlPlaneAnswers.CommitLands | control_plane.go:539-560 | after a commit the route of each lane has exactly the machine and pane asked for and is no sink, and the answer says so |
| ControlPlaneAnswers.OthersStay | control_plane.go:399-411 | no other transfer touches a route, the epoch or the owner; a commit moves the epoch by one and the owner to the target machine |
| ControlPlaneAnswers.RecordTells | control_plane.go:399-420 | an applied transfer is stamped with the time, and the newest record keeps all of its answer |
| ControlPlaneAnswers.WritesExactly | control_plane.go:902-918 | a direct write that touches a lane is made exactly when the policy is known and the write touches none of its lanes, and then lane by lane |
| ControlPlaneAnswers.ReloadsExactly | control_plane.go:763-801 | a policy file that reads replaces the lanes, any other leaves the policy |
| ControlPlaneAnswers.PaneMeans | lanes_write.go:39-39 | a pane is w, a word, :p and a word, at most 128 bytes |
| ControlPlaneAnswers.RequestIdMeans | hub_spawn.go:26-26 | a request id is five groups of hexadecimal digits with the marks of a random UUID |
| ControlPlaneAnswers.DocKeyMeans | control_plane.go:267-277 | a document key has 1 to 200 characters, none a space or a control character |
| ControlPlaneAnswers.NameLengths | lanes_write.go:38-38 | how long lane names, machine ids and document keys may be |
| ControlPlaneRuns.AuthorityTogether | control_plane.go:881-918 | under a loaded two-lane policy, from the first commit on both authority lanes sit on the control owner, through direct writes, reloads that fail and further transfers |
| ControlPlaneRuns.FindNewest | control_plane.go:438-445 | the lookup finds the newest record with the id |
| ControlPlaneRuns.FindNone | control_plane.go:438-445 | and finds nothing exactly when no record has it |
| ControlPlaneHub.Validate | control_plane.go:231-252 | the code for a malformed request, for mixed target machines, or none |
| ControlPlaneHub.FindRecord | control_plane.go:438-445 | searches from the newest record |
| ControlPlaneHub.ExpectedRoutesMatch | control_plane.go:454-462 | every requested lane has a route that is not a sink and sits where the request expects it |
| ControlPlaneHub.AllTargetsReady | control_plane.go:523-530 | every target pane is well formed and its machine known |
| ControlPlaneHub.OrderChecks | control_plane.go:502-521 | the five passed checks in their fixed order, exactly when all five are there once and passed |
| ControlPlaneHub.CommitRoutes | control_plane.go:539-547 | moves the requested lanes one after the other: each to its target machine and pane, no other |
| ControlPlaneHub.HubServer.BundleDecision | control_plane.go:881-900 | refuses an unloaded policy and any pair that is not the authority bundle |
| ControlPlaneHub.HubServer.Clearance | control_plane.go:473-483 | clears a commit exactly when the claims, the checks and the targets are all ready |
| ControlPlaneHub.HubServer.Prepare | control_plane.go:399-420 | the snapshot and response of an accepted transfer |
| ControlPlaneHub.HubServer.TransferControlPlane | control_plane.go:334-436 | file and answer are those of the machine step, whatever is refused, replayed or written |
| ControlPlaneHub.HubServer.ReloadLanes | control_plane.go:763-801 | a policy that cannot be read leaves the last good set |
| ControlPlaneHub.HubServer.WriteLanesDirectly | lanes_write.go:330-449 | a direct write changes routes only if every lane it touches passes the authority decision, and keeps the control block whenever it is worth persisting |
| HubAlertProofs.NoticedOnce | hub_alert.go:323-394 | over all interleavings each generation has at most one successful first notice and at most one successful recovery |
| HubAlertProofs.RecoveryAfterDelivery | hub_alert.go:247-262 | a recovery is sent only for a generation whose first notice was recorded as delivered |
| HubAlertProofs.RemindersStop | hub_alert.go:274-302 | a reminder passes its check only before the first healthy observation of the incident, and was created at least 30 minutes after the last recorded delivery |
| HubAlertProofs.PendingIsFlying | hub_alert.go:323-394 | while a pending flag is set the notification it stands for is still on its way, so no flag blocks later notices for good |
| HubAlertProofs.NothingForgotten | hub_alert.go:274-302 | after any observation the first notice, reminder or recovery the incident still owes is on its way |
| HubAlertProofs.RecoveryExactly | hub_alert.go:247-262 | after any run an incident has closed with a recovery to tell exactly when its first notice was recorded and it is over; its recovery was told exactly when it has so closed, is not the current one still owing it, and no problem observation took the recovery away (an owed one passes its check: CheckExactly) |
| HubAlertProofs.DroppedForGood | hub_alert.go:219-222 | a recovery taken away is never told, over any run |
| HubAlertProofs.SentNotRecorded | hub_alert.go:367-379 | a run in which the first notice is sent, the incident closes before the commit, and so no recovery is owed |
| HubAlertProofs.RecoveryLost | hub_alert.go:219-222 | a run in which one problem observation within the grace period takes an owed recovery away |
| HubAlertNotices.CheckExactly | hub_alert.go:329-352 | over every run a queued notification is sent exactly when its incident is the present one and still wants it: a first notice while active, a reminder while active without a healthy observation, a recovery once it closed with its notice recorded, was not taken away and was not told |
| HubAlertNotices.FinishExactly | hub_alert.go:367-391 | a send that succeeded is recorded exactly then too |
| HubAlertNotices.QueuedExactly | hub_alert.go:274-302 | an observation queues a notification exactly when the incident then owes it and none is on its way; a reminder half an hour after the last delivery, on node keys only |
| HubAlertNotices.RecoveryTold | hub_alert.go:213-394 | a run in which an incident is told, closes, and its recovery is sent and recorded |
| HubAlertProofs.NoticeNamesCause | hub_alert.go:274-302 | whatever is sent about an incident, its recovery included, carries the reason and the check of the observation that opened it |
| HubAlertProofs.OldGenerationIgnored | hub_alert.go:329-391 | checking or committing a notification of an older generation changes no alert state |
| HubAlertProofs.RunInv | hub_alert.go:213-394 | every interleaving keeps flags, flights, successes and records in agreement |
| HubFailover.DownFromObservations | hub_alert.go:213-264 | however sends interleave, the alert is active exactly when the observations alone say the machine is down, in as many generations as down events |
| HubFailover.EmittedFromObservations | hub_alert.go:79-109 | the failover events emitted along any run, however sends interleave, are exactly those its observations call for |
| HubFailover.EmittedAlternate | hub_alert.go:79-109 | the events of any run alternate, starting with down, and end with down exactly while the alert is active |
| HubFailover.EmitsDownNeeds | hub_alert.go:219-246 | an observation of a run emits down only if it ends an unbroken run of problem observations of which the required number were past the grace period |
| HubFailover.EmitsUpNeeds | hub_alert.go:247-262 | it emits up only if it ends the required number of healthy observations in a row |
| HubFailover.FailoversAlternate | hub_alert.go:79-109 | the events called for by any observations alternate, starting with down |
| HubFailover.DownNeeds | hub_alert.go:219-246 | observations that call for a down event end an unbroken run of problems of which the required number were past the grace period |
| HubFailover.UpNeeds | hub_alert.go:247-262 | an up event ends the required number of healthy observations in a row |
| HubFailover.EnoughFlips | hub_alert.go:213-264 | and that many are enough |
| HubAlertBoard.NoteProblem | hub_alert.go:219-247 | the debounce of a problem observation, field by field |
| HubAlertBoard.NoteHealthy | hub_alert.go:247-262 | the debounce of a healthy observation |
| HubAlertBoard.AlertBoard.Observe | hub_alert.go:213-264 | updates one key only, and returns the notification that state owes |
| HubAlertBoard.AlertBoard.ObserveNode | hub_alert.go:79-109 | a down or up event exactly when the alert opens or closes |
| HubAlertBoard.AlertBoard.Recheck | hub_alert.go:329-352 | decides in the fields of the state whether a notification is still wanted, and otherwise gives its pending flag back |
| HubAlertBoard.AlertBoard.Commit | hub_alert.go:367-391 | the commit after a send |
| HubAlertBoard.AlertBoard.Dispatch | hub_alert.go:323-394 | the notifications in order, when nothing else touches the table |
| HubAlertBoard.DispatchIsRun | hub_alert.go:323-394 | what a dispatch does to its key is what check, send and commit of the machine do, and no other key changes |
| LaneEventLog.OneFilePerKey | emit.go:368-419 | in every run whose listings miss nothing, of two files with one key the earlier is unreadable, unless both were there before the run |
| LaneEventLog.KeysDistinct | emit.go:368-419 | in such a run, with records within the read cap, no two files written share a key, stale listings included |
| LaneEventLog.ScanExactly | emit.go:374-391 | a step keeps one readable file per key exactly when it is not a listing that leaves out the file with its own key while it shows a later one |
| LaneEventLog.WholeSees | emit.go:374-391 | a listing that shows every earlier file of those it shows misses nothing |
| LaneEventLog.RunSingle | emit.go:368-419 | one readable file per key is kept over every run whose listings miss nothing |
| LaneEventLog.GapRepeats | emit.go:374-419 | a run in which a listing shows the second of two files published meanwhile and not the first, and the key of the first is published again |
| LaneEventLog.OversizedRepeats | emit.go:457-461 | a record over the 16 KiB read cap is published twice under one key |
| LaneEventLog.NeverOverwritten | emit.go:401-413 | no step of any producer replaces a file |
| LaneEventLog.SequencesDistinct | emit.go:401-413 | producers get distinct sequence numbers, each holding the record its producer brought |
| LaneEventLog.LinksAtEnd | emit.go:401-413 | a link succeeds exactly one past everything published |
| LaneEventLog.DuplicateIsTrue | emit.go:388-418 | a producer told duplicate was told the truth |
| EmitFiles.JobDirectory.Write | emit.go:305-361 | reuses the first matching file, refuses a conflicting one, or adds one file past the highest sequence and changes nothing else |
| EmitFiles.WriteAgain | emit.go:321-350 | once a readable record is on disk, writing it again finds that very file, wherever its name sorts |
| EmitFiles.SecondRecord | emit.go:328-350 | in any listing with one record of the key, a second record under it that differs is a new event for a different loss or a different question without report, and a conflict otherwise |
| EmitFiles.WrittenExactly | emit.go:321-350 | a write where one record could share its key, field by field: new if kind, job, epoch, report or reason differ; that file if the question and every compared field agree, whatever the stamps; else new for a loss or another question without report, and a conflict otherwise |
| EmitFiles.DecisionMeans | emit.go:317-350 | over any listing a write is fresh exactly when no file decides it, reuses file i exactly when that is the first that decides and it matches, and is a conflict exactly when the first that decides does not match |
| EmitFiles.LaneDirectory.Write | emit.go:368-400 | a lone lane write is a duplicate exactly when a readable file has the key, and otherwise takes an unused sequence past all others |
| OutboxProtocol.RunInv | assistant_write.go:829-866 | with any number of drainers, lost replies and crashes, a row is marked sent only with the positive row id under which the hub holds it, and nothing outside the outbox is posted |
| OutboxProtocol.NothingLost | assistant_write.go:829-866 | from any outbox and hub, over any run, every row that was ever owed is still unsent, or the hub holds it under the positive id the outbox recorded (how an owed row gets sent: AnswerExactly, CanBeSent) |
| OutboxProtocol.AnswerExactly | assistant_client.go:563-588 | a reply leads to the mark with row id n exactly when n is positive and the reply is created for the posted event or names it a duplicate; after any other the row stays owed |
| OutboxProtocol.MarkExactly | assistant_write.go:844-862 | a mark that arrives makes an owed row sent under its id and changes no other |
| OutboxProtocol.CanBeSent | assistant_write.go:829-866 | from every state an owed row can still be brought to sent, by a first post or by one that finds it there |
| OutboxProtocol.MarkedAfterCrash | assistant_client.go:577-585 | a run in which the drainer dies before its mark and the next one marks the row on the hub's word of a duplicate |
| OutboxProtocol.SentStays | assistant_write.go:849-862 | a sent row keeps its hub row id for good |
| OutboxProtocol.OnlyOwedPosted | assistant_client.go:550-588 | whatever the hub came to hold through drainers was in the outbox |
| OutboxPass.Outbox.DrainPage | assistant_write.go:806-817 | one listing: rows seen before are skipped, every other row is tried in order |
| OutboxPass.Outbox.Pass | assistant_write.go:792-822 | a pass terminates, tries the rows in order and each once, exactly as far as fewer rows than a listing holds have failed, and leaves unsent exactly the others |
| OutboxPass.Outbox.DrainPass | assistant_write.go:792-822 | the same with the listing limit of 1000 |
| OutboxPass.AllTried | assistant_write.go:799-822 | when fewer rows fail than a listing holds, every owed row is tried |
| OutboxPass.LeftShape | assistant_write.go:799-822 | what is left unsent is the failing tried rows, then the untried rest |
| TokenBucket.WritesWithin | assistant_write.go:254-293 | the half of BudgetExactly that holds, for any real burst and any identity: at most burst + rate * time in a window, pruning included |
| TokenBucket.BudgetExactly | assistant_write.go:237-293 | for every burst and rate: in every run of a new limiter every identity stays within burst + rate * time, exactly when 600 seconds of refill reach the burst |
| TokenBucket.ConfiguredExactly | assistant_write.go:256-263 | in the configured numbers, exactly when the burst is at most ten times the rate per minute |
| TokenBucket.BudgetBroken | assistant_write.go:265-293 | for every other burst and rate a run of a new limiter that admits an identity more than that, and answers other than a limiter that never forgets |
| TokenBucket.PruningInvisible | assistant_write.go:269-275 | dropping idle buckets changes no answer to any sequence of calls on a clock that does not go back |
| TokenBucket.IdleIsFull | assistant_write.go:251-275 | an idle bucket is full whatever was in it exactly when burst <= 600 seconds of refill |
| TokenBucket.ForgetsUnseenExactly | assistant_write.go:251-275 | dropping idle buckets changes no answer in any run of a new limiter, and none from any state, exactly when burst <= 600 seconds of refill |
| TokenBucket.ForgettingShows | assistant_write.go:269-275 | otherwise a limiter above 1024 identities admits one call too many to an identity it forgot |
| TokenBucket.WindowBound | assistant_write.go:265-293 | the same bound from any state and for any refill that does not go back |
| TokenBucket.LimiterAdmitsExactly | assistant_write.go:265-293 | the limiter, pruning included, admits a call exactly when no window of that identity's calls that ends with it would go over burst plus what the window earned |
| TokenBucket.AdmittedExactly | assistant_write.go:281-292 | the same for the bucket of one identity, told from its own call times |
| TokenBucket.OwnCallsOnly | assistant_write.go:265-293 | the bucket the limiter keeps for an identity is the one its own calls alone leave |
| TokenBucket.Allowed | assistant_write.go:281-292 | refill, cap, spend |
| TokenBucket.WriteRateLimiter.Prune | assistant_write.go:269-275 | drops exactly the idle buckets |
| TokenBucket.WriteRateLimiter.Allow | assistant_write.go:265-293 | answer and buckets of one call, pruning above 1024 buckets |
| TokenBucket.PublishesWithin | fleet_state.go:237-254 | a node publishes at most 320 + 2 * time in any window on a clock that does not go back |
| TokenBucket.NodeRunsSteady | fleet_state.go:237-254 | on such a clock the publish budget answers like the plain bucket |
| TokenBucket.PublishesOnAnyClock | fleet_state.go:237-254 | on any clock a node publishes at most what its budget holds, 320 at first, plus twice the forward steps of the clock between its calls |
| TokenBucket.ForwardIsWindow | fleet_state.go:245-248 | on a clock that does not go back those steps are within the window |
| TokenBucket.NodeClockStep | fleet_state.go:245-248 | so no bound in the length of the window holds: for every n a run from the start gets more than n publishes through in a window of length 0, on a clock that goes one second back and forth |
| TokenBucket.FleetBudgets.AllowNode | fleet_state.go:237-254 | answer and budget of one publish |
| PagedScan.Scan | assistant_tools.go:647-665 | a walk of p pages of size n returns the first p * n matching rows and says truncated exactly when there are at least that many |
| PagedScan.NextPage | assistant_client.go:412-440 | the page after the last row seen continues the unpaged filter without gap or overlap |
| Progress.ProgressViews | assistant_tools.go:1062-1200 | the answer when each of its reads may see another state: done and delivered exactly when what each read saw had nothing pending, undelivered, owed or live on the lane and was read whole, told apart by the newest relay row, which for delivered has a stamp of a real machine and pane; failed exactly when a row read has had three attempts, a chain failed, or the newest row of a quiet lane has another stamp or three attempts; accepted exactly when no chain failed and one is only accepted |
| Progress.ProgressLane | assistant_tools.go:1062-1200 | the same from one state: done and delivered exactly when that state is settled, and failed too when the newest row of a settled lane did not land |
| Progress.ClassMeans | assistant_tools.go:561-575 | a delivered row landed exactly when its stamp is a real machine id, a slash and a pane that is not cancelled; otherwise it went to the sink or was only stamped; an undelivered row is given up exactly from three attempts on |
| Progress.StampMeans | assistant_tools.go:588-597 | the stamps that count: machine and pane, the machine none of hub, sink and resolve |
| Progress.ChainExactly | assistant_tools.go:837-930 | a chain stands at accepted exactly when the outbox still owes a notice of the question, else at done or failed exactly when the row it is judged by reached a pane or never will |
| Progress.NoticeMeans | assistant_tools.go:792-806 | a notice is named after its question with some positive revision |
| Progress.AnswerIsNotice | assistant_tools.go:939-941 | the event id an answer is sent under is recognised, for every revision from 1 on |
| Progress.PendingMeans | assistant_tools.go:1064-1091 | what waits for a decision: a request whose task is neither merged nor dropped, a question without answer |
| ProgressBetween.DoneProves | assistant_tools.go:1062-1200 | done, read across any changes of the remote state: up to the reading of the outbox the lane had no relay row and owed nothing, and the pending view held no question of it |
| ProgressBetween.DeliveredProves | assistant_tools.go:1092-1199 | delivered, read across any changes: a row still waiting at the end was posted after the undelivered rows were read, and a later row of the lane landed |
| ProgressBetween.QuietPosted | assistant_tools.go:1120-1143 | in a quiet reading whatever the lane owed up to the reading of the outbox had been posted by then |
| ProgressBetween.QuietThroughout | assistant_tools.go:1092-1199 | if nothing was posted on the lane between the two relay walks, nothing of it is waiting at the end |
| ProgressBetween.DeliveredTooSoon | assistant_tools.go:1092-1199 | two owed rows drained between the reads and the second one landed: the lane is answered delivered while the first still waits |
| ProgressBetween.RunLater | assistant_write.go:829-866 | whatever drains, stamps, failed attempts and new rows do, no relay row is lost and no owed row leaves the outbox without standing in the relay table |
| Progress.SettledFully | assistant_tools.go:1062-1200 | in a settled lane no relay row of the full state is undelivered and no task is live |
| Progress.DoneChain | assistant_tools.go:837-930 | a done notice chain has a row that landed, nothing of it is owed in the outbox view, and nothing of it is undelivered in a lane read whole |
| Progress.Fold | assistant_tools.go:997-1045 | the verdict of the least advanced item, ties broken by the smallest key |
| Progress.FoldOrderFree | assistant_tools.go:1012-1040 | the winning verdict is the same for every order of items with distinct keys |
| Names.BeforeMeans | assistant_tools.go:1012-1040 | a name comes before another exactly when at the first difference it has ended or has the smaller character |
| Progress.VerdictsDistinct | assistant_tools.go:1012-1040 | items with distinct keys give verdicts with distinct keys |
| Progress.LiveNotDone | assistant_tools.go:897-930 | an undelivered row never counts as done |
| Progress.PendingPart | assistant_tools.go:1064-1091 | unanswered work, or a list too long to prove there is none |
| Progress.RelayPart | assistant_tools.go:1092-1108 | failed exactly when one of the undelivered rows read is out of attempts, live exactly when one is not |
| Progress.ChainsPart | assistant_tools.go:1109-1119 | done exactly when the chain of every answered question is done, failed exactly when one failed, accepted exactly when none failed and one is only accepted |
| Progress.OutboxPart | assistant_tools.go:1120-1143 | owed rows of the lane, or an outbox view that may hide some |
| Progress.TasksPart | assistant_tools.go:1144-1163 | quiet exactly when every task of the lane was read and is over |
| Progress.HistoryPart | assistant_tools.go:1164-1199 | the newest row of the lane decides |
| Progress.CutAt | assistant_tools.go:588-592 | the machine part of a stamp ends at its first slash |
| Burst.DecisionsApart | burst.go:317-361 | under any policy any two wakes, from pressure or on demand, are at least the cooldown apart, and so are any two sleeps |
| Burst.SleepsExactly | burst.go:336-358 | a report puts the target to sleep exactly when all its reports for the idle period showed no worker and no running lease, and the cooldown since the last sleep is over |
| Burst.WakesExactly | burst.go:324-335 | under any policy a report wakes the target exactly when it is the source's, its last loads, as many as the policy asks for, were all at or over a limit, and the cooldown since the last wake is over |
| Burst.LeaseMeans | hub_burst_ondemand.go:35-62 | what the sweep leaves active for the target is exactly that a lease was given, not released, not lost with the target, and ends later than now |
| Burst.RequestsExactly | hub_burst_ondemand.go:104-152 | an on-demand wake passes the cooldown exactly when there is none or it is over |
| Burst.OverStays | hub_burst_ondemand.go:35-62 | the record of a released or lost lease stays in the table, over any run |
| Burst.IdleRunIsEnd | burst.go:344-352 | the idle stretch consists of the last reports, none with a worker or an active lease |
| Burst.SameMachineSleepsBusy | burst.go:324-335 | under every policy with one machine as source and target some run puts it to sleep right after a busy report, which woke it and so did not end its idle time |
| Burst.NeverActiveAgain | hub_burst_ondemand.go:35-62 | a lease that is no longer active never becomes active again |
| Burst.RunIdles | burst.go:336-358 | every run under a policy with distinct machines keeps the idle time equal to the idle stretch that ends the reports |
| Burst.RunInv | hub_burst_ondemand.go:104-152 | every run under any policy keeps wakes and sleeps a cooldown apart and the pressure counter equal to the run that ends its history |
| BurstHub.BurstBoard.Sweep | hub_burst_ondemand.go:35-44 | removes exactly the leases that ran out |
| BurstHub.BurstBoard.MarkLost | hub_burst_ondemand.go:46-52 | marks exactly the active leases of the target |
| BurstHub.BurstBoard.HoldsActive | hub_burst_ondemand.go:54-62 | sweeps, then tells whether the target has an active lease |
| BurstHub.BurstBoard.Release | hub_burst_ondemand.go:209-218 | an active lease becomes released, nothing else changes |
| BurstHub.BurstBoard.Observe | burst.go:317-361 | state, leases and decision of one report |
| BurstHub.BurstBoard.ObserveTarget | burst.go:336-358 | the target part of a report |

## Left out

Busy relay:

- BusyRelayRuns.NoRowStranded: store calls succeed and waits are cancelled only by an arm; store-error fallbacks, shutdown and the timing of max_wait are not modelled.
- BusyRelayRuns.FinishAccounts: a dropped row carries one of three reasons (lease ended, attempts used up, may be in the pane); which lease signal ended, and the reports sent to the hub, are not part of the state.
- BusyRelayRuns.TypedAtMost: an immediate delivery, which holds no row, is one step from inject to outcome.
- BusyRelayRestart.RestartAcksOnce: no offer, edit or cancel arrives while restored rows are judged (resume runs before the read loop), and delivered records are never aged out.
- BusyRelayRestart.AckedForGood: an event id is offered to the node once; a resend of an event the node no longer holds, which the source delivers again when its payload differs from the record, is not a step.
- BusyRelayRestart.GoneForGood: for the same reason a later resend of an event that left the node, which the source may deliver again, is not a step.
- Offers are of event ids the node has not seen; the dedupe gate before an offer and a resend that moves a held event to another pane are not steps of the model, a resend of a held event to its own pane is.
- Inject verdicts, pane probes, leases, harness adapters and reroute observations are answers from outside: any verdict may follow any inject, and any row not yet typed may be dropped, left or found unverifiable.
- RelayManager.Manager.Hold: the lists name events; the copies of rows the code keeps in them, with HeldSince and fresh, and the wait time an arm computes from those are not modelled.
- RelayBatch.Compose: the nonce and the printed minutes of a row are given as bytes; how they are made is not modelled.

Control plane:

- ControlPlaneRuns.PrintMeans: the SHA-256 of the canonical request is taken to be injective and is represented by what it hashes.
- ControlPlaneHub.HubServer.ReloadLanes: the modification-time check that skips an unchanged policy file, and the status fields of the last reload.
- ControlPlaneHub.HubServer.WriteLanesDirectly: field validation, node scope, quotas and eviction choice of a lane write are not modelled; any set of lanes may change as long as each passes the authority decision.
- HTTP, JSON decoding, backups, the size limit of the lanes file and the change broadcast; a write that does not happen is one of three outcomes.

Alerts:

- HubAlertProofs.NoticedOnce: one key at a time; the lane-stall keys, whose state hub_lane_stall.go deletes, are not covered, and the generation counter does not wrap.
- HubAlertBoard.AlertBoard.Dispatch: the sequential case; interleavings are the business of HubAlertProofs.
- The stall-beat watch, check alerts of vanished checks and the text of messages.

Event files:

- LaneEventLog.OneFilePerKey: files are not deleted and sequence numbers do not wrap; a listing shows every file that was there when it began and any of those published meanwhile.
- EmitFiles.JobDirectory.Write: one writer at a time, because the source renames over a name it chose; concurrent job writers are not modelled.

Outbox and assistant:

- OutboxProtocol.RunInv: the hub tells the truth when it names a positive row id, and outbox rows are not deleted.
- OutboxPass.Outbox.Pass: no read error, timeout or concurrent writer, and a row's delivery ends the same way whenever it is tried.
- Progress.ProgressViews: no read fails, and a paged walk or one listing sees one state; the reason strings and receipts are not part of the answer, and the lane is in the caller's scope.
- ProgressBetween.RunLater: relay rows are never removed and a stamp is never taken back; both tables belong to handoffkeep.
- Progress.Notice covers answered chat questions; the decision-request chain, conversations and single-request progress are the same chain with another matcher.
- TokenBucket.BudgetExactly: reals instead of floating point, and a clock that does not go back.

Burst and fleet:

- Burst.DecisionsApart: one fixed policy and a clock that does not go back.
- requestBurst's polling for the woken target is two steps, the request and the lease; lease ids are never reused.
- The fleet state store beyond its publish budget.

Everything else in the repository (handlers, websocket loops, CLI, configuration,
measurement parsers, crypto wrappers) is plumbing around these decisions.
