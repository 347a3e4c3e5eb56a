# Verified model of the wallet core's protocols

A Dafny model of the stateful protocol code in the Rust wallet core, with proofs of what it keeps over
whole runs. `dafny verify dfyconfig.toml` checks everything.

## What is modelled

**Multispend rooms.** Each device folds an ordered room log into tables. `Multispend` defines one event's
effect as a function (`Step`) and a log's as a fold (`Run`); a `None` is a panic of the handler.
`RoomTables` is the same code as classes that overwrite tables, proved equal to those functions.
`GroupInvariants`, `Approvals`, `Faults`, `ApprovedOnce`, `LateJoiner` and `ChronoPaging` prove properties
of the fold over all logs. `GroupHistory` and `RoomHistory` say of every stored thing which events of the log
made it what it is: invitations and their ballots, the status, refused events, requests, votes, submissions,
deposits, and what a listing shows. `Timeline` and `Scanner` model reading a room backwards and folding it in
increments, `LostCursor` what happens when the server loses the event to continue from, `Rescanner` the
concurrent rescan service, `Handshake` the senders and event handlers on top of it, and `Outbox` the
submission of approved withdrawals. `RescanRuns` and `HandshakeRuns` prove that calls and sends which nothing
interrupts go through.

**Federation Initiator.** `FiDriver` is the operation driver: callers, a queue, the driver task and
completions pass one claim around, and the claim protects the push hook and the approved selection. `FiRuns`
states what each operation leaves when nothing interrupts it.
`LiquidityRecovery` is the launch recovery with its backoff. `Handoff` is automatic joining against leaving
through the table of weak locks.

**Seat payments.** `SeatPayments` interleaves the journal, funding transactions, consensus verdicts, calls
and crashes. `RefundStream` is the wait for a rejected payment's refunds. `RefundClaims` binds refund
issuances to quotes. `Denominations` is the exact splitting of prices and refunds into notes.

**Federations.** `FederationLifecycle` is the seven-state machine of one federation under its
reader/writer lock, with the per-federation client lock, the recovery monitor, and failures of storage and
of shutdown at every step that has them. `FederationRuns` says which state each operation ends in.

**Logs.** `LogRotation` is the crash-safe daily rotation, `LogTrim` the browser log's in-place trim.

Concurrent code is modelled as steps: one step is what runs between two points where other tasks can
interfere, and a theorem about a run holds for every list of steps. A caller can be dropped, a driver or
process can stop, between any two steps where the original awaits.

## Assumptions

Multispend:

- Event ids are fresh (`FreshLog`), the log is ordered, and events arrive decrypted.
- `Env.federationOf` is the parsing of an invite code, and `Env.verifies` whether a signature of a request
  verifies under a key; both are fixed oracles. An account's keys iterate in ascending order.
- Our own requests draw on the finalized group's account, as the wallet makes them
  (bridge/fedi-ffi/src/rpc.rs:2592-2612). `FaultReachableIff` assumes no more than that; `StepFaultIff` holds
  of any request.
- The agreement of late joiners assumes nothing else about what members send: `LateJoinerAgreesIff` gives its exact
  condition, on the tables at the reannouncement that the newcomer starts from, which describes the old
  member's group, and on later reannouncements. It speaks of runs in which neither device panics.
  `OneSignerInvitationDisagrees` is a room without the condition.
- That nobody panics needs honest members (`HonestRun`, `HonestEvent`): the inviter is a signer, accepted keys
  differ, requests draw on the group's account, and approvals are signed with the approver's own key.
- `ScansRefineOneFold` assumes the server keeps the cursor event; `LostCursor` says what happens otherwise.
  The release-date cut assumes ordered timestamps and no multispend event before that date, for the rooms
  where it cuts.
- In `Handshake`, an event can be read by scans no later than its handler runs, and event ids are fresh.
  The guarantee on a sent event is stated for runs in which no scan failed, because a scan that fails
  commits nothing and still reports Idle. A scan that panics ends the rescan task, and is a step of the model.

Federation Initiator:

- The external client's status changes only inside `execute`; a new formation starts only in
  `pay_and_create`; a successful abandon leaves no active formation; preview ids and hooks are fresh.
- Approving a preview after its limit was checked succeeds.

Seat payments:

- `finalize_and_submit_transaction_dbtx` refuses an operation id that exists, the quote id determines the
  operation id, and what it writes commits atomically with the journal row.
- A transaction's verdict is final, and a status the wallet reports as accepted or rejected is the verdict.
- The client makes one call at a time (`FiDriver` proves its claim exclusive), for a seat's current quote,
  and replaces a quote only after recovery answered NotStarted or Rejected.
- A transaction id is a collision-free hash of the transaction.

Federations:

- One federation is modelled, with one state machine, as the map of state machines by federation id keeps it
  (crates/federations/src/lib.rs:66-109 and 167-180); its load is started once, before anything else.
- Reopening a client after recovery never finds it recovering again.
- A failed or dropped leave, a failed shutdown and a failed deletion are steps of the model. A call that holds
  the client (`Call`) stands for background services too, which hold it from
  crates/federations/src/federation_v2/mod.rs:798-812 until they end or are shut down. A client dropped
  without a shutdown closes, and its lock is freed, when its last owner lets go.

Logs:

- A launch on another day than the one before finds no log of its own day yet: the clock does not go back.
- Raw log contents and the active day's file are durable when written; zstd round-trips; file names are
  canonical (the original also parses names such as `fedi.log.007`).
- A directory sync makes all earlier changes of that directory durable; before it, a crash may keep or undo
  each of them separately, except that a rename is atomic.
- A read inside a browser file, and a write of some bytes, make at least one byte of progress or fail; a
  call that fails changes nothing.

## Where code and documentation differ

- `quote_denominations` is documented to answer `None` when a price is not representable. It is greedy, so
  it also does so for some representable prices (`GreedyCanMiss`: 6 out of 3 and 4). The documentation is
  right for every price if and only if one tier divides all tiers (`QuotedIffRepresentable`).
- A join expects the client's lock to be free. After a leave that failed or was dropped while a call or a
  background service still holds the client it is not, and the join panics, then and only then (`PanicsIff`).
- `refund_denominations` refuses with the words that the amount cannot be represented exactly. Above its repair
  limit it also refuses some that can (`RefundCanMiss`); `RefundDenominations` states exactly when it refuses.
- The browser log is meant to be appended to. When both the trim and the cut after it failed, writing starts
  at KEEP_SIZE wherever the file ends (`WasmLogFile.constructor`, `WasmLogFile.Write`).
- The handler's expectation that a request with enough approvals can be signed fails exactly when an approver
  has no key in the group, the approvers have too few different keys, or a signature does not verify
  (`StepFaultIff`, `OwnFaultIff`); the fold checks none of these when it stores an approval. The requester's
  handler then panics, and its rescan task serves nobody any more (`DeadTaskServesNobody`).
- A finalized group is not always complete: the fold accepts an inviter who is not a signer
  (`IncompleteGroupForms`), and equal keys of two signers (`SharedKeyGroupForms`). `FinalizedIsCompleteIff`
  gives the exact condition for the former. From both rooms a log of ordinary requests, with approvals that
  verify wherever the members' keys can sign, leads to the panic (`IncompleteGroupFaults`,
  `SharedKeyGroupFaults`).
- With an undated legacy file, an existing compressed day 10 is overwritten (`LegacyReplacesDayTen`).
- A reannouncement is meant for newcomers only. When the group has none at present, one of an old, cancelled
  invitation is ignored by who knows it and taken for a group by who does not: the one way for a newcomer to
  part from the others later (`LateJoinerAgreesIff`).

## Model

| member | source | states |
|---|---|---|
| `RoomTablesModule.LoadedInvitation.ProcessVote` | crates/multispend/src/lib.rs:98-119 | a vote is taken exactly from a signer who has not voted, and changes only that signer's entry |
| `RoomTablesModule.LoadedWithdrawal.ProcessResponse` | crates/multispend/src/lib.rs:179-270 | a response changes the request and gives the outcome that the specification function gives, in every branch |
| `RoomTablesModule.RoomTables.ProcessRaw` | crates/multispend/src/lib.rs:363-591 | handling one event in place leaves the tables and flags of the specification, or panics with it, and writes nothing when the event is invalid |
| `RoomTablesModule.RoomTables.ProcessWithdrawalResponse` | crates/multispend/src/lib.rs:512-565 | the same for a withdrawal response, including the queued request and all three panics: both `expect`s and the `unwrap` |
| `RoomTablesModule.RoomTables.ApprovedRow` | crates/multispend/src/lib.rs:527-556 | the row of an approved request is assembled and validated, or the panic reported |
| `RoomTablesModule.RoomTables.CollectSignatures` | crates/multispend/src/lib.rs:529-543 | the loop over signatures builds the indexed map, or stops where an `expect` would fail |
| `RoomTablesModule.RoomTables.Process` | crates/multispend/src/lib.rs:335-361 | invalid events are recorded; a step of the fold in every case |
| `RoomTablesModule.RoomTables.ListEvents` | crates/multispend/src/lib.rs:662-700 | a page in place equals the page of the specification |
| `RoomTablesModule.RoomTables.InsertChronological` | crates/multispend/src/db.rs:154-187 | the new entry takes the next counter and nothing else changes |
| `RoomHistory.RequestsFollowLog` | crates/multispend/src/lib.rs:494-565 | after every log each request has its event's terms; a signer's vote on it is that signer's first response, and its submission what its requester reported first |
| `RoomHistory.SubmissionFollowsReports` | crates/multispend/src/lib.rs:230-268 | a request is Accepted(x) or refused with an error if and only if its requester's first report said so, and unknown if and only if there was none |
| `RoomHistory.VotesFollowResponses` | crates/multispend/src/lib.rs:179-229 | a user stands as approving with a signature, or as rejecting, if and only if a signer whose first response it was |
| `RoomHistory.DepositsFollowLog` | crates/multispend/src/lib.rs:566-591 | every deposit noted under a group is stored as its event gave it |
| `RoomHistory.StoredFromLog` | crates/multispend/src/lib.rs:494-591 | every stored request or deposit comes from such an event |
| `RoomHistory.DataFollowsLog` | crates/multispend/src/lib.rs:594-625 | the data reported for an event's id is that event's deposit, or its request with terms, description and sender |
| `RoomHistory.ListingFollowsLog` | crates/multispend/src/lib.rs:662-700 | a full listing shows each of them, with that data and the time it was sent |
| `GroupHistory.InvitationsFollowLog` | crates/multispend/src/lib.rs:373-493 | after every log an invitation has the terms its event opened it with; a user stands by it as the opening says, or else as that signer's first vote while it was active |
| `GroupHistory.InvitationFromLog` | crates/multispend/src/lib.rs:373-449 | every stored invitation was opened by an event |
| `GroupHistory.StatusFollowsLog` | crates/multispend/src/lib.rs:120-140 | the status names the invitation opened last and not cancelled, final if and only if it is complete and a ballot or a reannouncement has had it weighed |
| `GroupHistory.RefusesIff` | crates/multispend/src/lib.rs:363-591 | exactly which events are refused, on any tables |
| `GroupHistory.InvalidFollowsLog` | crates/multispend/src/lib.rs:335-361 | the events recorded as invalid are exactly the refused ones |
| `GroupHistory.FlagsMean` | crates/multispend/src/lib.rs:512-591 | the service is woken exactly by the approval that completes our own request, the account refreshed exactly on deposits and on reported completions |
| `GroupInvariants.RunKeepsConsistent` | crates/multispend/src/lib.rs:363-591 | group status, invitations and requests agree with each other after every log, and every stored id came from the log |
| `GroupInvariants.FinalizedIsPermanent` | crates/multispend/src/lib.rs:373-493 | no later log, from anyone, changes a finalized group |
| `GroupInvariants.FinalizedIsCompleteIff` | crates/multispend/src/lib.rs:98-140 | a group finalized by any log has one key per signer if and only if its opening event named only signers; then nobody in it has rejected |
| `Approvals.SignatureMapDefinedIff` | crates/multispend/src/lib.rs:529-543 | both `expect`s of signature assembly hold exactly when every approver has a key in the group |
| `Approvals.SignatureMapMeaning` | crates/multispend/src/lib.rs:529-543 | signatures sit at their approvers' key indices, inside the account, and as many as approvers if and only if the keys differ |
| `Approvals.RowDefinedIff` | crates/modules/stability-pool/common/src/lib.rs:667-705 | a request can be signed exactly when each approver has a key, there are at least `from.threshold` different ones, and the signatures that stand verify |
| `Approvals.OwnSignedIff` | crates/modules/stability-pool/common/src/lib.rs:667-705 | for the group's own account: exactly when the approvers' keys exist and differ and all their signatures verify |
| `Faults.StepFaultIff` | crates/multispend/src/lib.rs:335-565 | a fresh event panics exactly when it completes our own request and the approvals cannot sign it |
| `Faults.OwnFaultIff` | crates/multispend/src/lib.rs:527-556 | on the group's account that means: an approver without a key, two with the same, or a signature that does not verify |
| `Faults.HonestRunNeverFaults` | crates/multispend/src/lib.rs:363-591 | a log of honest openings, keys, requests and approvals panics on nobody's device |
| `Faults.FaultReachableIff` | crates/multispend/src/lib.rs:527-556 | from a finalized group some log with ordinary requests of ours panics if and only if a signer lacks a key, two share one and the threshold is at least two, or a signature can fail to verify |
| `Faults.GenuineFaultReachableIff` | crates/multispend/src/lib.rs:527-556 | when approvals verify, if and only if the group has one of the first two defects |
| `Faults.MissingSignerFaults` | crates/multispend/src/lib.rs:527-543 | the concrete log: a quorum's approvals with a signer among them who has no key |
| `Faults.IncompleteGroupForms` | crates/multispend/src/lib.rs:98-140 | a non-signer's invitation and one acceptance finalize a group in which a signer has no key |
| `Faults.IncompleteGroupFaults` | crates/multispend/src/lib.rs:363-565 | that room goes on to a log that panics, with ordinary requests, and with approvals that all verify if the group's requests can be signed at all |
| `Faults.SharedKeyGroupForms` | crates/multispend/src/lib.rs:98-140 | two signers accept with one key, and the group is finalized |
| `Faults.SharedKeyGroupFaults` | crates/multispend/src/lib.rs:363-565 | that room too goes on to such a log |
| `ApprovedOnce.StepQueuesOnCrossing` | crates/multispend/src/lib.rs:197-270 | a withdrawal is queued exactly by the event that takes it across the threshold on its requester's device |
| `ApprovedOnce.QueuedOnceIffApproved` | crates/multispend/src/lib.rs:526-558 | over any log each request is queued at most once, and has been if and only if it is ours and approved |
| `ApprovedOnce.QueuedRowMeaning` | crates/multispend/src/lib.rs:527-558 | what is queued: our request's own terms, by a new approval of a signer, with at least `from.threshold` signatures that verify at their approvers' places; exactly threshold many from the group's account |
| `LateJoiner.NewcomerAgreesAtOnceIff` | crates/multispend/src/lib.rs:405-449 | the first reannouncement makes a newcomer agree exactly when the active invitation is not already finalizable |
| `LateJoiner.OneSignerInvitationDisagrees` | crates/multispend/src/lib.rs:405-449 | an invitation of one signer is active for its sender and final for a newcomer |
| `LateJoiner.StepKeepsAgreementIff` | crates/multispend/src/lib.rs:363-591 | any event, from anyone, keeps an old member and a newcomer in agreement if and only if it is not a stale reannouncement |
| `LateJoiner.LateJoinerAgreesIff` | crates/multispend/src/lib.rs:405-449 | after the reannouncement both members hold the same group, active invitation and later requests throughout any log, if and only if the active invitation was not already finalizable and no later reannouncement is stale |
| `LateJoiner.LateJoinerAgrees` | crates/multispend/src/lib.rs:405-449 | so they agree after any log without a stale reannouncement |
| `LateJoiner.LateJoinerAgreesInRoom` | crates/multispend/src/multispend_matrix.rs:457-497 | the same for whole rooms, the old member having followed everything since the beginning, where no invitation was for one signer alone |
| `LateJoiner.RunKeepsUnfinished` | crates/multispend/src/lib.rs:373-493 | without invitations for one signer alone, the active invitation is never one that could be finalized already |
| `LateJoiner.HonestRoomAgrees` | crates/multispend/src/multispend_matrix.rs:457-497 | in an honest room nobody panics either, and the newcomer agrees |
| `LateJoiner.HonestRunIsHealthy` | crates/multispend/src/lib.rs:373-493 | an honest room never panics and keeps its tables healthy |
| `ChronoPaging.RunKeepsIndex` | crates/multispend/src/db.rs:154-187 | counters are 0 to n-1, name every listable event once, and no entry ever moves |
| `ChronoPaging.PageIsNextCounters` | crates/multispend/src/lib.rs:662-700 | a page shows the next counters below its start without gaps |
| `ChronoPaging.PageIsComplete` | crates/multispend/src/lib.rs:594-625 | every listed counter has stored event data |
| `ChronoPaging.ChainedPagesListOnce` | crates/multispend/src/lib.rs:662-700 | chained pages over a growing room show the events of the first page's room once each, newest first |
| `Outbox.WithdrawalService.RunOnce` | crates/multispend/src/withdrawal_service.rs:30-57 | a pass submits rows in order until a refusal; only a full pass removes exactly what it listed |
| `Outbox.LeavesOnlyWhenSubmitted` | crates/multispend/src/withdrawal_service.rs:20-57 | over any passes a row leaves the table if and only if a committed pass had it and every transfer accepted |
| `Timeline.BatchStops` | crates/multispend/src/rescanner.rs:338-425 | a batch stops paging exactly at the cursor, or without one at an event older than the release |
| `Timeline.MessageIsListed` | crates/multispend/src/rescanner.rs:248-334 | of the fetched events every multispend message is folded, in order |
| `Timeline.ListedIsMessage` | crates/multispend/src/rescanner.rs:248-334 | and nothing else |
| `Timeline.AllMessageSince` | crates/multispend/src/rescanner.rs:338-425 | paging back returns exactly the events after the cursor, reads at most one batch further than it must, and its final assertion never fails |
| `Timeline.CutKeepsMessages` | crates/multispend/src/rescanner.rs:338-425 | cutting at the release date loses no multispend message when times are ordered |
| `Scanner.RoomScanner.Scan` | crates/multispend/src/rescanner.rs:248-334 | a scan folds the fetched messages and moves the cursor past them; a failed one changes nothing |
| `Scanner.RoomScanner.Rescan` | crates/multispend/src/rescanner.rs:185-334 | a rescan is one step of the specification, cursor included; a failed read or a panic leaves everything as it was |
| `Scanner.ScansRefineOneFold` | crates/multispend/src/rescanner.rs:185-334 | however scans split a growing room, the first cut at the release date or not, the tables are one fold of it and each event is applied once |
| `LostCursor.StepIsHarmlessIff` | crates/multispend/src/lib.rs:335-591 | an event leaves the tables unchanged if and only if it is a reannouncement to a device that has a group or that invitation |
| `LostCursor.RunIsHarmlessIff` | crates/multispend/src/lib.rs:335-591 | a log leaves any tables unchanged if and only if each of its events does: no later event undoes a change |
| `LostCursor.LostCursorRepeats` | crates/multispend/src/rescanner.rs:338-425 | a cursor the server lost makes the whole room apply again, which changes nothing if and only if all its messages are ignored reannouncements |
| `LostCursor.LostCursorFaults` | crates/multispend/src/rescanner.rs:338-425 | once a withdrawal request or a deposit is stored, repeating the history panics |
| `LostCursor.HarmlessRepeatFoldsAlike` | crates/multispend/src/rescanner.rs:338-425 | a harmless repeat ends with the tables that the kept cursor would have given |
| `Scanner.CutHistoryFoldsAlike` | crates/multispend/src/rescanner.rs:338-425 | the cut history folds to the same tables as the full one |
| `Rescanner.ApplyKeepsInv` | crates/multispend/src/rescanner.rs:86-243 | every step of callers and task keeps the rescan invariant |
| `Rescanner.NoRescanIsLost` | crates/multispend/src/rescanner.rs:148-243 | unless a scan panicked, Queued always comes with a stored wakeup, a caller about to store one or spawn the task, or a scan about to start; Idle means every request was served by a scan begun after it |
| `Rescanner.NoWaiterMissesIdle` | crates/multispend/src/rescanner.rs:86-103 | a blocked waiter is notified or its Idle is still ahead; one that returned has seen everything requested before its call scanned |
| `Rescanner.NeverStuck` | crates/multispend/src/rescanner.rs:148-243 | away from rest some step that nobody can cancel is enabled; rest is Idle with nothing owed, or a task that panicked |
| `Rescanner.DeadTaskServesNobody` | crates/multispend/src/rescanner.rs:185-243 | after a panicking scan no later step folds an event, reaches Idle or releases a blocked waiter |
| `Rescanner.ComesToRest` | crates/multispend/src/rescanner.rs:185-243 | without new requests every interleaving holds a bounded number of such steps |
| `RescanRuns.WaitReturns` | crates/multispend/src/rescanner.rs:86-103 | unless a scan has panicked, whoever waits in whatever world is brought to the end of its wait by steps of those already there |
| `RescanRuns.QueueReturns` | crates/multispend/src/rescanner.rs:148-184 | so is whoever queues, its request made for everything readable |
| `RescanRuns.RequestsAreServed` | crates/multispend/src/rescanner.rs:185-243 | and the service to rest, with every request served and, while scans succeed, everything demanded folded |
| `Handshake.ApplyKeepsInv` | crates/multispend/src/multispend_matrix.rs:72-201 | every step of senders, handlers and the service keeps the handshake invariant |
| `Handshake.SendIsSound` | crates/multispend/src/multispend_matrix.rs:145-201 | while scans succeed, Ok means the own event is folded and valid; a refusal means it is folded and invalid |
| `Handshake.ReceiveNeverDisconnects` | crates/multispend/src/multispend_matrix.rs:145-201 | one send at a time, and its channel stays stored while it receives, so its assertion holds |
| `HandshakeRuns.SendCompletes` | crates/multispend/src/multispend_matrix.rs:72-201 | whenever nobody is sending and scans succeed, a send goes through: its event is taken, handled, acknowledged and folded, and it is reported as the fold judged it |
| `HandshakeRuns.AcksAreGivenOrDropped` | crates/multispend/src/multispend_matrix.rs:72-105 | a handler's acknowledgement waits only while the channel of a send under way is full, and one for a send that is over is dropped |
| `FiDriver.ApplyKeepsInv` | crates/bridge/src/fi_client.rs:1567-1954 | every step keeps one claim in one place, and what it protects |
| `FiDriver.ClaimIsConserved` | crates/bridge/src/fi_client.rs:1567-1661 | from a launch into any formation state, the flag is set exactly when one claim exists, never two; the queue never holds two commands |
| `FiDriver.SendNeverWaits` | crates/bridge/src/fi_client.rs:1630-1651 | a caller with a command ready finds the queue empty |
| `FiDriver.LiveHookIsNeverRevoked` | crates/bridge/src/fi_client.rs:855-953 | a hook is revoked only while no formation is active, so a live formation's hook never is |
| `FiDriver.OneLimitPerPreview` | crates/bridge/src/fi_client.rs:1432-1526 | every payment command for a preview carries the limit it was first approved with |
| `FiRuns.PreviewIsStored` | crates/bridge/src/fi_client.rs:855-892 | an undisturbed preview becomes the selection, unapproved and without a hook; the hook of the one it replaces is revoked unless a formation may have it |
| `FiRuns.PayableIff` | crates/bridge/src/fi_client.rs:1432-1526 | a preview can be paid for exactly when it is the stored one, its hook entry too, with a limit that covers its estimate, and after an agreement with the agreed one |
| `FiRuns.PaymentStarts` | crates/bridge/src/fi_client.rs:894-953 | an undisturbed payment starts a formation with the preview's hook, not revoked, agrees the limit and leaves nothing of the preview |
| `FiRuns.FailedPaymentIsTriedAgain` | crates/bridge/src/fi_client.rs:894-953 | one that fails and may be tried again keeps selection, limit and hook; the next one with that limit, and no other, starts the formation with the same hook |
| `FiRuns.FailedPaymentIsClosed` | crates/bridge/src/fi_client.rs:894-953 | one that fails for good leaves neither selection nor hook, and its hook is revoked |
| `FiRuns.PreviewedIsPaid` | crates/bridge/src/fi_client.rs:1253-1526 | from any rest without a formation, a preview and then a payment that covers it start one, with a hook made for it |
| `FiRuns.AbandonClears` | crates/bridge/src/fi_client.rs:1734-1954 | an abandon after which no formation is left clears the selection and takes and revokes the hook |
| `FiRuns.OtherOperationRuns` | crates/bridge/src/fi_client.rs:1608-1661 | any other operation changes nothing but the flag, which is clear again |
| `LiquidityRecovery.LiquidityLaunchRecovery.ReconcileOneStep` | crates/bridge/src/fi_client.rs:1008-1058 | one step reads or resumes, and leaves the state of the specification for each answer |
| `LiquidityRecovery.LiquidityLaunchRecovery.TakeStep` | crates/bridge/src/fi_client.rs:780-789 | a pending resume goes first and is consumed, then a read |
| `LiquidityRecovery.LiquidityLaunchRecovery.RecordCurrent` | crates/bridge/src/fi_client.rs:791-805 | a resumable report is kept pending, anything else ends the recovery |
| `LiquidityRecovery.LiquidityLaunchRecovery.RecordResumeSuccess` | crates/bridge/src/fi_client.rs:813-826 | a resumable result is read again after the backoff, anything else ends the recovery |
| `LiquidityRecovery.LiquidityLaunchRecovery.RearmAfterMutation` | crates/bridge/src/fi_client.rs:841-846 | a liquidity command restarts the recovery without delay |
| `LiquidityRecovery.RecoveryFollowsEvidence` | crates/bridge/src/fi_client.rs:746-847 | never read and resume together; resumes only what the latest read reported; quiet exactly after a result with nothing to resume; waits min(2^(k-1), 300) s after k steps without progress |
| `LiquidityRecovery.ReportDecides` | crates/bridge/src/fi_client.rs:1969-1994 | in the report's own fields: a prepared operation is always carried on, a rejected one never, an accepted one exactly while providers are live and no operator is needed, or a completed gateway item waits for verification |
| `LiquidityRecovery.PreparedIsResumed` | crates/bridge/src/fi_client.rs:1008-1058 | an operation left prepared at a launch is read and then resumed by its own id |
| `LiquidityRecovery.DelayGrows` | crates/bridge/src/fi_client.rs:1996-2005 | the retry delay follows the doubling sequence with its cap |
| `Handoff.OneGuardPerFederation` | crates/bridge/src/fi_client.rs:225-240 | the weak lock table behaves as one mutex per federation while anyone holds or waits for it |
| `Handoff.RetainKeeps` | crates/bridge/src/fi_client.rs:225-240 | dropping dead entries loses no lock in use |
| `Handoff.LeftIsNeverAutoJoined` | crates/bridge/src/full.rs:100-104 | once left, a federation is not joined automatically by any later step, across restarts |
| `Handoff.AutoJoinConcludes` | crates/bridge/src/fi_client.rs:242-312 | undisturbed, an automatic join joins and marks a federation it finds unmarked, only marks one already joined, and leaves it unmarked when joining fails |
| `Handoff.LeaveMarksAndLeaves` | crates/bridge/src/full.rs:100-104 | undisturbed, a leave marks and then leaves if it can; an automatic join that follows gets no further than the marker |
| `SeatPayments.ApplyKeepsInv` | crates/bridge/src/fi_payments.rs:554-691 | every step, crash and verdict keeps journal, operation log and transactions describing the same payments |
| `SeatPayments.OneFundingPerQuote` | crates/bridge/src/fi_payments/funding.rs:723-845 | one quote gets at most one funding transaction |
| `SeatPayments.OneAcceptedPerSeat` | crates/bridge/src/fi_payments.rs:554-691 | whatever quotes a seat went through, at most one payment for it is accepted |
| `SeatPayments.AnswersAreTrue` | crates/bridge/src/fi_payments.rs:554-624 | NotStarted means nothing was committed, Rejected refused with inputs spendable, Prepared accepted; journal mismatches never arise |
| `SeatPayments.RecoveryIsDefinite` | crates/bridge/src/fi_payments.rs:554-624 | once a payment is settled, an undisturbed recovery gives the right definite answer |
| `SeatPayments.CreatePays` | crates/bridge/src/fi_payments.rs:626-691 | in every reached world a create call for a quote never funded funds it: accepted, it answers Prepared, refused, it says so, and the ledger is stated in each case |
| `SeatPayments.JournaledCallAnswers` | crates/bridge/src/fi_payments.rs:554-691 | a create or recover call for a funded quote replays its row, funds nothing and gives the answer that the funding's fate calls for |
| `SeatPayments.ReleasedQuoteIsReplaced` | crates/bridge/src/fi_payments.rs:554-624 | a quote never funded, or refused with its inputs back, is released by recovery, and its seat takes a new quote |
| `RefundStream.AwaitRejectedInputRefunds` | crates/bridge/src/fi_payments/funding.rs:507-605 | success only on proof, in updates that are of one operation and do not contradict each other, that accepted refunds into the payer's mint spend exactly the rejected notes and their outputs were awaited; and always on a stream that delivers them, repeated and reordered at will |
| `RefundStream.CountReady` | crates/bridge/src/fi_payments/funding.rs:564-602 | each ready refund is counted once and checked against what is already recovered |
| `RefundStream.PayerNotesMeans` | crates/bridge/src/fi_payments/funding.rs:474-492 | notes are counted exactly when all inputs are the payer's, each as often as it is named |
| `RefundStream.AllOutputsMeans` | crates/bridge/src/fi_payments/funding.rs:588-601 | exactly the refunds' outputs are awaited |
| `RefundClaims.RefundJournal.GuardRefundSettlement` | crates/bridge/src/fi_payments/journal.rs:106-167 | the claim and the journal row are written together or not at all |
| `RefundClaims.RefundJournal.RecordRefundCreditCompleted` | crates/bridge/src/fi_payments/journal.rs:172-220 | only the claimed issuance is marked credited |
| `RefundClaims.RefundJournal.PersistJournalSignatures` | crates/bridge/src/fi_payments/journal.rs:231-272 | merging signatures leaves claim and mark alone |
| `RefundClaims.OneIssuancePerQuote` | crates/bridge/src/fi_payments.rs:693-735 | over any history an issuance is credited under at most one quote and back, and neither claim nor mark is lost |
| `RefundClaims.GuardIsExclusive` | crates/bridge/src/fi_payments/journal.rs:106-167 | after one quote's guard, no other quote's guard ever passes for that issuance |
| `RefundClaims.SettlementCompletes` | crates/bridge/src/fi_payments.rs:693-735 | a funded quote that has claimed nothing settles with an issuance nobody has claimed, whatever happens between guard and mark, and stays settled |
| `RefundClaims.ClaimFollowsHistory` | crates/bridge/src/fi_payments/journal.rs:106-167 | after any history a quote's claim is that of the first guard that named an unclaimed issuance |
| `RefundClaims.CreditFollowsHistory` | crates/bridge/src/fi_payments/journal.rs:172-220 | an issuance is marked credited if and only if a mark named it after its quote had claimed it |
| `RefundClaims.SignaturesFollowHistory` | crates/bridge/src/fi_payments/journal.rs:231-272 | a row's signatures are the first merged in after it was written |
| `Denominations.QuoteDenominations` | crates/bridge/src/fi_payments/denominations.rs:9-26 | the greedy loop computes the greedy split |
| `Denominations.QuotedIsExact` | crates/bridge/src/fi_payments/denominations.rs:9-26 | a split adds up to the price and uses only available denominations |
| `Denominations.QuotedIffRepresentable` | crates/bridge/src/fi_payments/denominations.rs:5-26 | exactly the representable prices are quoted if and only if one tier divides all tiers |
| `Denominations.SomePriceIsMissed` | crates/bridge/src/fi_payments/denominations.rs:5-26 | without such a tier, a representable price that is refused: one above the largest tier by less than the smallest |
| `Denominations.GreedyCanMiss` | crates/bridge/src/fi_payments/denominations.rs:5-26 | a refused and representable price: 6 out of 3 and 4 |
| `Denominations.MinimumCoins` | crates/bridge/src/fi_payments/denominations.rs:96-128 | the dynamic program finds a representation exactly when one exists, and a smallest one |
| `Denominations.RefundDenominations` | crates/bridge/src/fi_payments/denominations.rs:36-94 | the refund notes are available ones and cost exactly the target with fees; some are found if and only if a first part of the greedy split leaves at most the repair limit and that can be made up; up to the limit a target is refused only if nothing meets it |
| `Denominations.TakeLargest` | crates/bridge/src/fi_payments/denominations.rs:62-70 | the notes taken first are the greedy split of the target by cost |
| `Denominations.RefundCanMiss` | crates/bridge/src/fi_payments/denominations.rs:72-94 | a target above the limit that is refused although three notes meet it |
| `FederationLifecycle.ApplyKeepsInv` | crates/federations/src/federation_sm.rs:93-396 | every step, failing ones included, keeps locks, client, calls, state and storage in agreement; the only new panic is a join that finds a client left open |
| `FederationLifecycle.OneClientAtATime` | crates/federations/src/federations_locker.rs:22-44 | whatever fails, at most one client is open, exactly when its lock is held; a federation reopened after recovery is still in storage |
| `FederationLifecycle.PanicsIff` | crates/federations/src/federation_sm.rs:93-396 | a step panics if and only if it joins a left federation whose client some call or background service still holds, which takes an earlier failure |
| `FederationLifecycle.FailedLeaveBreaksJoinIff` | crates/federations/src/federation_sm.rs:341-396 | in any world, a leave that fails in storage makes the next join panic if and only if a call or background service holds the client |
| `FederationLifecycle.OnlyItsMonitorEndsRecovery` | crates/federations/src/federation_sm.rs:232-396 | Recovering is left only by its own monitor; data is deleted only after the client has shut down and nobody holds it |
| `FederationLifecycle.StorageFailureCanPanic` | crates/federations/src/federation_sm.rs:341-375 | the panic is reached from a first start |
| `FederationRuns.RecoveringIsMonitored` | crates/federations/src/federation_sm.rs:93-230 | in every run a client opened in mid-recovery is published as Recovering, with a monitor under way unless a recovery failed; Normal holds only clients opened complete |
| `FederationRuns.JoinCompletes` | crates/federations/src/federation_sm.rs:93-141 | an undisturbed join ends in Normal, or in Recovering with its monitor, of a new client |
| `FederationRuns.LoadCompletes` | crates/federations/src/federation_sm.rs:142-230 | so does an undisturbed load; one that cannot open its client ends in LoadFailed |
| `FederationRuns.RecoveryCompletes` | crates/federations/src/federation_sm.rs:232-339 | an undisturbed monitor whose recovery succeeds ends in Normal of a newly opened client |
| `FederationRuns.LeaveCompletes` | crates/federations/src/federation_sm.rs:341-396 | an undisturbed leave ends with the client closed, its lock free, and neither entry nor data in storage |
| `FederationRuns.NonceReuseLeaves` | crates/federations/src/federation_sm.rs:232-339 | a monitor that finds reused nonces leaves the federation |
| `LogRotation.LogDirectory.RunLogMaintenancePass` | bridge/fedi-ffi/src/logging.rs:189-262 | until a pass prunes, a crash loses no day at all; from then on only days already pruned, none of the newest; a finished pass leaves exactly the newest days, whole; a pass finishes if and only if no operation fails and no raw file of day 10 is in the undated one's way |
| `LogRotation.LogDirectory.LaunchPass` | bridge/fedi-ffi/src/logging.rs:162-187 | one launch's pass promises just what the theorem across launches assumes of it, in every state it goes through |
| `LogRotation.LogDirectory.RotateDay` | bridge/fedi-ffi/src/logging.rs:214-237 | a day's raw file goes only once its compressed copy is whole and durable, and does go unless an operation fails |
| `LogRotation.LogDirectory.Prune` | bridge/fedi-ffi/src/logging.rs:239-262 | unless an operation fails pruning leaves the newest days, and each removal loses only the day it removes |
| `LogRotation.LogDirectory.MigrateLegacyLogFile` | bridge/fedi-ffi/src/logging.rs:305-334 | the undated file becomes day 10, or nothing changes; it does unless an operation fails or day 10 has a raw file |
| `LogRotation.HoldsIsGuarded` | bridge/fedi-ffi/src/logging.rs:189-262 | a pass starts with every day the directory holds guarded, whatever retention keeps |
| `LogRotation.GuardedIsCrashSafe` | bridge/fedi-ffi/src/logging.rs:189-300 | a directory that guards some days preserves them in every outcome of a crash |
| `LogRotation.LoggingKeepsGuarded` | bridge/fedi-ffi/src/logging.rs:171-179 | the logger appending to the active day does not disturb a pass |
| `LogRotation.NextDayKeepsGuarded` | bridge/fedi-ffi/src/logging.rs:75-84 | a launch on a later day guards yesterday's active file as one more past log |
| `LogRotation.CrashesOnlyDelay` | bridge/fedi-ffi/src/logging.rs:164-300 | over any launches on any days, killed or crashed anywhere, a pass that then finishes leaves exactly the newest logs of the whole history |
| `LogRotation.NewestOfRest` | bridge/fedi-ffi/src/logging.rs:239-262 | losing days outside the newest does not change the newest |
| `LogRotation.NewestMeans` | bridge/fedi-ffi/src/logging.rs:239-262 | the newest n days are n of them, or all, and none is older than a day left out |
| `LogRotation.LegacyReplacesDayTen` | bridge/fedi-ffi/src/logging.rs:302-334 | an old compressed day 10 survives a finished pass if and only if no other raw log takes its place |
| `LogTrim.ReadExact` | bridge/fedi-wasm/src/logging.rs:66-84 | unless a read fails the whole range is read, whatever the short reads |
| `LogTrim.WriteExact` | bridge/fedi-wasm/src/logging.rs:86-105 | a first part of the range is written, all of it unless a write fails, whatever the short writes, and nothing else changes |
| `LogTrim.CopyTail` | bridge/fedi-wasm/src/logging.rs:145-163 | wherever the copying stops, the file is the old one with a first part of its last KEEP_SIZE bytes at the front |
| `LogTrim.TrimInner` | bridge/fedi-wasm/src/logging.rs:133-170 | unless an operation fails a long file becomes exactly its last KEEP_SIZE bytes; what each failure leaves |
| `LogTrim.TrimIfNeeded` | bridge/fedi-wasm/src/logging.rs:120-131 | contents and position after the trim, after the fallback cut, and when that fails too; trimmed if and only if no operation fails |
| `LogTrim.WasmLogFile.constructor` | bridge/fedi-wasm/src/logging.rs:108-131 | writing starts at the end of the file, if and only if the trim or the cut succeeded or the file has KEEP_SIZE bytes anyway |
| `LogTrim.WasmLogFile.Write` | bridge/fedi-wasm/src/logging.rs:173-187 | a write at the end appends a part of its bytes and stays at the end; elsewhere it overwrites at the position, and the end is reached again exactly by writing up to it |

## Left out

- User interface, FFI and WASM entry points, RPC dispatch, type projection and scripts: plumbing.
- Matrix SDK, Nostr, Iroh, Fedimint client and `fi-client` internals: oracles with the contracts above.
- Cryptography: keys, signatures, hashes and ids are opaque values.
- Retry of event decryption: events arrive decrypted.
- ApprovedOnce.QueuedOnceIffApproved: covers queueing; that a failed withdrawal pass is retried is not claimed, because it waits for the next notification.
- Sending completion notifications: the retry id and the removal share a transaction, so no claim about duplicates under crashes.
- Several rooms at once: `Rescanner` and `Handshake` follow one room; the acknowledgement channel's traffic from other rooms, which a sender skips, is not modelled.
- `scan_complete_stream` and the account refresh streams: observers of the same notifications.
- Replacement previews: `FiDriver` treats `apply_replacements` as one of the other claimed commands, and has no stored replacement for an abandon to clear.
- Account types and the remaining terms of a transfer request: opaque, since the fold does not look at them.
- The formation retry delay of the driver loop: the same backoff function as the liquidity recovery.
- Funding reservations of the payer wallet, the spend lock and fee bounds: a refused reservation appears as a submission that does not commit.
- Collecting payment signatures and crediting refunds in the mint: oracles of seat recovery and settlement.
- Overflow of note counts in `count_payer_notes`, and of prices: counts and amounts are unbounded.
- Part of a federation's data deleted: a failed deletion leaves the data as it was.
- Non-canonical log file names, and raw log contents that the logger has not synced.
- Communities, onboarding, device registration and the other bridge services.
