# FICC durable protocols

FICC is a controller with helpers on managed nodes. Most of its work is a set of crash-safe protocols over small durable
records: nothing is replayed, nothing is lost, and after any interruption the records say what happened. This project
models those protocols and proves what they are for.

## How the models are built

Each protocol is a state machine. Its state holds the durable files or table rows, the volatile part of the running
processes, and, where a property speaks about the past, a history of what was done. An action is a single durable
write, a message on the network, a step of an outside program, or a crash; a run is any legal sequence of actions. An
inductive invariant is kept by every action (`InvKept`), and the `...Safety` lemmas are statements about every run.

Beside each machine stands a class whose fields are those records and whose methods follow the code: same order of
checks, same codes, and the same branches up to what is listed under "Left out". Each durable write is noted as an action of the machine, and after it the method may
stop, so `Valid()` says that the records are always where some legal run of the machine leads. Each class has a constant
`disturbed`: without it nothing stops, fails or interferes, and the contracts then say what the operation answers and
leaves, not only what it may not do. The loop-heavy codecs and pagers are methods proved against specification functions.

| files | protocol |
|---|---|
| `transfer_chunks`, `transfer_model`, `transfer_safety`, `transfer_node`, `transfer_quota` | resumable file transfer: chunk journal, digest chain, commit by rename or exchange, cleanup, quota |
| `delivery_model`, `delivery_safety`, `delivery_lane` | agent deliveries from controller to node to runtime, and closing a bus run |
| `outbox_model`, `outbox_safety`, `outbox_lane`, `agent_spool` | agent replies back to the bus, and the bounded spool |
| `audit_pages`, `audit_model`, `audit_safety`, `audit_delivery` | durable audit batches and admission that waits on them |
| `receipts_model`, `receipts_safety`, `receipts_store` | never-replay receipts of five kinds |
| `archive_model`, `archive_node` | resumable archival of one controller epoch |
| `editor_model`, `editor_node` | editor save by exchange, with another writer |
| `jobs_model`, `jobs_node`, `job_capture` | job admission and bounded output capture |
| `name_codec`, `file_listing`, `kubernetes_pages`, `engine_log`, `web_socket`, `display_relay` | codecs, pagers and the display relay |

Common assumptions: a record is replaced atomically; a hash is injective (a free datatype constructor); random
identities are fresh; a raised system error stops the helper like a crash; a file's identity is its inode number.
SHA-256 chains follow `sha256(previous + chunk)`; frames follow RFC 6455, sections 5.2 to 5.5; names follow
section 5 of RFC 4648.

## What the models showed about the code

- `transfer.verify` accepts a transfer whose rename has already happened. The staged file is then the displaced object, and
  verification cuts it when it is longer than the transfer and that much of it agrees with the journal: an empty upload over a
  file, stopped after the rename, loses the replaced file. `TransferSafety.VerificationCutsDisplaced` gives the exact
  condition and `TransferSafety.VerificationCanEmptyTheReplacedFile` a run.
- The agent bridge counts the payload of a ping or pong against the message limit: a message within the limit is refused
  exactly when it has more than 128 frames, or some frame, control frames included, does not fit beside the data before it
  (`WebSocket.ReceiveReassembles`; `WebSocket.PingCanRefuseALegalMessage` is three frames).
- Writes that are killed leave scratch files behind. The spool refuses its own folder, for good, exactly when files and
  leftovers together exceed 2048 (`AgentSpool.StaysAcceptable`, `AgentSpool.RefusedForGood`): never with up to 1024
  killed writes, and possibly with 1025 (`AgentSpool.KilledWritesCanCloseIt`).
- An interrupted archival with nothing active can be completed by its own steps exactly when the job namespace is free or belongs to the old
  or the next controller, everything live was recorded, and no recorded group is missing or duplicated
  (`ArchiveModel.FinishesExactlyWhen`). Work that appears before completion, even after the owner changed, blocks it as long
  as that work stays (`ArchiveModel.NewOwnerCanBlock`, `ArchiveModel.BlockedWhileItStays`), and removing it, by
  `editor.forget` or by the next epoch's archival, unblocks it (`ArchiveModel.RemovalUnblocks`). The controller itself does not
  start while its own archival is pending (src/ficc/service.py:48-50), so such work comes from elsewhere.
- A recorded edit receipt that `editor.forget` removes before it was moved is in neither place, and the archival, which
  asks for each recorded group in exactly one place, cannot be finished (`ArchiveModel.RemovedGroupIsMissed`).
- On the node a failed or cancelled receipt can still be overwritten; only the controller's settled states are final
  (`DeliverySafety.NodeOutcomes` says exactly when, `DeliverySafety.CancelledCanBeOverwritten` is a run,
  `DeliverySafety.SettledStays`).
- Containers and administration lock one profile but count the receipts of all profiles before they write one, so the
  limit of 1024 grows by one for every further profile (`ReceiptsSafety.ReceiptsAreBounded`), and that many can exist
  (`ReceiptsSafety.BoundIsReached`).
- One name has several encodings: the decoder also accepts `+` and `/`, nonzero spare bits in a padded last group, and, in
  some releases of Python, padding after a complete group. A text that decodes is the encoder's exactly when it has
  none of the three (`NameCodec.OneCanonicalSpelling`); encoding and then decoding is exact.

## Model

| member | source | states |
|---|---|---|
| `TransferChunks.ManifestIdentifiesSource` | node/ficc_node/file_manifest.py:13-26 | chunks whose plain or chained digest is the manifest of a source concatenate to exactly that source, and a chained manifest also fixes its size |
| `TransferChunks.ChainInjective` | node/ficc_node/file_manifest.py:21-26 | two chains are equal only for the same size and the same chunk digests in the same order |
| `TransferChunks.SplitJoins` | node/ficc_node/file_manifest.py:21-30 | cutting a source into chunks and joining them gives the source back, with one journal slot per chunk |
| `TransferChunks.ReadsVerify` | node/ficc_node/file_transfer.py:203-210 | if every bounded read of the data matches its journal entry, the prefix is the one the journal describes |
| `TransferChunks.BadReadRefutes` | node/ficc_node/file_transfer.py:203-210 | a short read or a digest that differs from its journal entry proves the prefix is not the one the journal describes |
| `TransferChunks.ConcatAt` | node/ficc_node/file_transfer.py:195-210 | in a concatenation of full chunks, the bytes at slot i are chunk i |
| `TransferChunks.VerifiesSameBytes` | node/ficc_node/file_transfer.py:195-220 | data that verifies against the digests of the accepted chunks begins with exactly those chunks |
| `TransferChunks.SameBytesVerify` | node/ficc_node/file_transfer.py:195-220 | data that begins with the accepted chunks verifies, whatever follows it |
| `TransferModel.InvKept` | node/ficc_node/file_transfer.py:48-347 | every durable write of every action, every outside change of the destination and every crash keeps the invariant that ties record, stage, journal, displaced object and history together |
| `TransferModel.OwnNeverRefused` | node/ficc_node/file_transfer.py:195-210 | before the rename the retained partial file of a reachable transfer always verifies: the refusal for a changed partial file cannot occur |
| `TransferSafety.AcceptedPrefix` | node/ficc_node/file_transfer.py:158-192 | in every reachable state, also inside an interrupted write, the first `offset` bytes are the accepted chunks, journal entry i is the digest of chunk i, and `offset` is a chunk multiple or the whole size |
| `TransferSafety.HistoryIsTheLog` | node/ficc_node/file_transfer.py:158-259 | the model's record of accepted chunks and renames is exactly what the run's steps say |
| `TransferSafety.PublishedAtMostOnce` | node/ficc_node/file_transfer.py:226-259 | the commit rename runs at most once per transfer over all retries and crashes |
| `TransferSafety.FoundCommittingNeverRenames` | node/ficc_node/file_transfer.py:229-261 | a process that finds the record committing, succeeded or cancelled never renames, whatever is retried afterwards |
| `TransferSafety.SucceededPublishedTheSource` | node/ficc_node/file_transfer.py:226-273 | a transfer in `succeeded` published, in one rename, exactly its accepted bytes, of the recorded size and digest, and they are the manifest's source under either digest form |
| `TransferSafety.DisplacedObjectIsKept` | node/ficc_node/file_transfer.py:256-304 | the object displaced by the rename is in the stage, or cleanup removed it after success and it was the expected one; nothing else is unlinked from the stage after a rename |
| `TransferSafety.VerificationCutsDisplaced` | node/ficc_node/file_transfer.py:195-219 | exactly when a verification after the rename shortens the displaced object: it is longer than the transfer and begins with the accepted bytes, that is, agrees with the chunk journal up to the recorded size |
| `TransferSafety.VerificationCanEmptyTheReplacedFile` | node/ficc_node/file_transfer.py:195-219 | a concrete run in which a verification after a stopped commit empties the replaced file |
| `TransferNode.Node.Prepare` | node/ficc_node/file_transfer.py:48-79 | prepares only an unprepared record, starts it empty, and refuses only for lack of space, leaving the record as it was |
| `TransferNode.Node.WriteChunk` | node/ficc_node/file_transfer.py:158-192 | which requests are accepted, with the refusal codes; an accepted chunk at the offset extends the accepted bytes by exactly that chunk, a repeated one changes nothing |
| `TransferNode.ReadPrefix` | node/ficc_node/file_transfer.py:195-214 | the verification loop answers the digest of the prefix, or refuses exactly for unreadable, changed or differently sourced data |
| `TransferNode.Node.VerifyPrefix` | node/ficc_node/file_transfer.py:195-223 | verification returns the prefix digest after cutting to the accepted bytes, or refuses with nothing changed; after a rename it cuts exactly a staged file longer than the recorded size |
| `TransferNode.Node.Arm` | node/ficc_node/file_transfer.py:234-257 | the rename is armed only when the whole content verifies, matches the caller's digest and the destination is as expected; the intent is on disk first |
| `TransferNode.Node.Rename` | node/ficc_node/file_transfer.py:258-260 | one exchange or no-replace rename, at most once more than before |
| `TransferNode.Node.Confirm` | node/ficc_node/file_transfer.py:261-273 | a committing transfer is refused exactly when the destination is not the committed object with the accepted bytes, or a file was expected and the staged object is not it; otherwise it is recorded as succeeded |
| `TransferNode.Node.Commit` | node/ficc_node/file_transfer.py:226-278 | a commit that reports success published the accepted bytes; a record not running is never renamed; each refusal has its cause, an unknown outcome only when destination or displaced object do not fit; undisturbed, a complete upload of the right bytes over the expected destination is published and cleaned up |
| `TransferNode.Node.Cleanup` | node/ficc_node/file_transfer.py:281-304 | cleanup empties the stage only after success and refuses, changing nothing, when another object was displaced |
| `TransferNode.Node.Discard` | node/ficc_node/file_transfer.py:82-102 | a discarded transfer ends cancelled without stage; an interrupted one can be repeated |
| `TransferNode.Node.Resume` | node/ficc_node/file_transfer.py:317-323 | a resumed transfer is running with the digest of exactly its accepted bytes; other states are refused unchanged |
| `TransferNode.Node.Cancel` | node/ficc_node/file_transfer.py:326-347 | the state each cancellation leads to; a committing transfer is refused unchanged |
| `TransferNode.Node.RemoveDownload` | node/ficc_node/file_transfer.py:331-340 | a prepared download is removed only while it is still the committed object |
| `TransferQuota.Scan` | node/ficc_node/file_transfer.py:118-124 | the scan counts the records that are unfinished, to be cleaned up or prepared downloads, and their sizes plus the sizes of the files they replace |
| `TransferQuota.Begin` | node/ficc_node/file_transfer.py:105-155 | admission succeeds exactly when size, limits, quota, free space and destination allow it; a retry returns the saved record; an admitted record stays within 64 transfers and its own quota |
| `TransferQuota.NeverCountsAgain` | node/ficc_node/file_transfer.py:118-124 | no durable write changes what a transfer weighs, and none makes a transfer that stopped counting count again |
| `TransferQuota.OnlyAdmissionRaises` | node/ficc_node/file_transfer.py:307-352 | no action, retry or crash other than an admission raises the retained count or bytes |
| `TransferQuota.AdmissionFits` | node/ficc_node/file_transfer.py:118-132 | an admission leaves at most 64 retained transfers within the quota its own request named |
| `TransferQuota.QuotaHolds` | node/ficc_node/file_transfer.py:105-155 | over every run of many transfers, at most 64 are retained and their bytes stay within the largest quota admitted under |
| `DeliveryModel.InvKept` | src/ficc/agent_exchange.py:10-60 | every durable write of controller, node and adapter, with delayed, repeated and lost exchanges and crashes, keeps the delivery invariant |
| `DeliverySafety.OfferedAtMostOnce` | node/ficc_node/agent_adapter.py:38-55 | over every run each delivery is reserved for the runtime at most once, and `next` returns it at most once |
| `DeliverySafety.ReturnedWasReserved` | node/ficc_node/agent_adapter.py:52-54 | what was returned to the runtime is on the node as uncertain or later, and was sent by the controller |
| `DeliverySafety.NodeStoredIsFirst` | node/ficc_node/agents.py:115-126 | no step removes a receipt or writes `node-stored` over an existing one |
| `DeliverySafety.ControllerAndNodeAgree` | src/ficc/agent_exchange.py:34-60 | a delivery the controller holds in any state learned from the node has its inbox item and receipt there, with the same content |
| `DeliverySafety.MissingIsNeverRefused` | src/ficc/agent_exchange.py:54-58 | the refusal for a missing, previously confirmed delivery cannot occur |
| `DeliverySafety.MissingIsSentAgain` | src/ficc/agent_exchange.py:54-58 | over every run a delivery reported missing is stored again and can be dispatched again with the same content |
| `DeliverySafety.ContentNeverConflicts` | node/ficc_node/agents.py:117-120 | a re-dispatched delivery always has the content already saved under its identity |
| `DeliverySafety.SettledStays` | src/ficc/agent_exchange.py:52-60 | a settled controller state never changes, although selected deliveries are rewritten without looking |
| `DeliverySafety.NodeOutcomes` | node/ficc_node/agent_adapter.py:56-69 | on the node the state of a settled receipt changes exactly when the inbox tool reads the item, or the runtime reports something else for a failed or cancelled one; inclusion and reading are final |
| `DeliverySafety.CancelledCanBeOverwritten` | node/ficc_node/agent_adapter.py:44-69 | a run in which an expired delivery is cancelled on the node and the runtime then reports any of its four states for it |
| `DeliverySafety.SessionKept` | node/ficc_node/agent_adapter.py:64-66 | a receipt of one runtime session is not moved to another by the runtime |
| `DeliverySafety.ClosedRunsStaySettled` | src/ficc/bus.py:117-131 | in every reachable state a closed run has only settled deliveries |
| `DeliveryLane.AgentLane.Select` | src/ficc/agent_exchange.py:12-23 | the first eight stored deliveries in row order whose credential is granted are chosen; those met without one are cancelled, all others are as they were |
| `DeliveryLane.AgentLane.Begin` | src/ficc/agent_exchange.py:12-39 | every sent delivery is marked uncertain on disk before dispatch; what is asked about are the pending deliveries from the rotating cursor on; only deliveries without a credential are cancelled |
| `DeliveryLane.EveryoneIsAsked` | src/ficc/agent_exchange.py:29-32 | with the cursor advancing by eight every pending delivery is asked about before the cursor has gone round |
| `DeliveryLane.AgentLane.NodeExchange` | node/ficc_node/agents.py:101-141 | the node admits each item once with a receipt and answers for every asked identity; a stopped exchange only adds |
| `DeliveryLane.AgentLane.Finish` | src/ficc/agent_exchange.py:41-60 | after a reply every sent delivery is confirmed; an unsettled delivery reported missing was uncertain and is stored again, any other report becomes its state; settled deliveries are untouched |
| `DeliveryLane.AgentLane.CancelAllUnsubmitted` | src/ficc/bus.py:127-131 | every delivery not yet dispatched is cancelled, all others keep their state |
| `DeliveryLane.AgentLane.NextMessage` | node/ficc_node/agent_adapter.py:38-55 | the message returned is the first in inbox order that is stored, direct and unexpired; it was never returned before, is durably uncertain, and nothing after it is touched; none is passed over |
| `DeliveryLane.AgentLane.RecordReceipt` | node/ficc_node/agent_adapter.py:56-69 | exactly which runtime receipts are accepted; inclusion and reading are not overwritten |
| `DeliveryLane.AgentLane.ReadItem` | node/ficc_node/agent_tool.py:38-44 | reading marks the item read except while its direct submission is unresolved |
| `DeliveryLane.AgentLane.StopNode` | node/ficc_node/agents.py:172-179 | stopping cancels every receipt still at `node-stored` and no other |
| `DeliveryLane.AgentLane.Rebind` | node/ficc_node/agent_binding.py:15-37 | the binding moves exactly when the session is the suspended, observed one and no old-session receipt is unresolved |
| `DeliveryLane.AgentLane.Register` | node/ficc_node/agent_adapter.py:28-37 | the first session binds and is ready, another one suspends |
| `OutboxModel.InvKept` | src/ficc/agent_outbox.py:15-45 | every write of tool, node and controller, with lost or delayed exchanges and saved or unsaved failures, keeps the outbox invariant |
| `OutboxModel.NothingRefusedIsPending` | node/ficc_node/agents.py:127-140 | once a request's acknowledgements are carried out, the listing shows nothing the controller has refused |
| `OutboxSafety.DecidedOnce` | node/ficc_node/agent_outbox.py:15-44 | whatever was queued is still pending unchanged, or is posted and kept as sent, or is refused for good with content and refusal kept; never both |
| `OutboxSafety.DecisionsStick` | src/ficc/agent_outbox.py:15-45 | a key once posted or refused stays so, with the same content |
| `OutboxSafety.EvidenceSticks` | node/ficc_node/agent_outbox.py:15-44 | what the node keeps as sent, rejected or refused never changes |
| `OutboxSafety.ContentNeverConflicts` | node/ficc_node/agent_outbox.py:31-43 | the refusals for mismatched or conflicting rejected content, and a key conflict on the bus, cannot occur |
| `OutboxSafety.AcknowledgementsFit` | src/ficc/agent_exchange.py:39 | cutting the acknowledgements of an exchange to eight drops none |
| `OutboxSafety.BusIsCanonical` | src/ficc/bus.py:59-99 | a sender's n-th message carries sequence n, messages carry their place in the run, and no sender's key appears twice |
| `OutboxLane.ReplyLane.Send` | node/ficc_node/agent_tool.py:43-78 | a repeated key with the same content answers where that reply is; a reply is refused exactly for other content under a used key or a full outbox of 128; any other is queued |
| `OutboxLane.ReplyLane.Acknowledge` | node/ficc_node/agent_outbox.py:15-44 | afterwards the entry is no longer pending and its content is kept; repeating an acknowledgement changes nothing |
| `OutboxLane.ReplyLane.NodeExchange` | node/ficc_node/agents.py:127-141 | every acknowledgement is carried out, then the first eight pending entries are listed in name order |
| `OutboxLane.ReplyLane.Post` | src/ficc/bus.py:53-115 | what a send comes to, by validity, whether the reply is stored already, and what fails: a stored reply is recognised before anything that may have changed since is checked; a permanent refusal means that nothing is posted |
| `OutboxLane.ReplyLane.PostForOther` | src/ficc/bus.py:53-115 | a retried send of another participant never adds a message; a send fails exactly for other content under a used key or a failing check |
| `OutboxLane.ReplyLane.Decide` | src/ficc/agent_outbox.py:17-44 | what was posted is acknowledged as accepted, what is refused for good as rejected with its code and exact content, and only a failure that may go away leaves the entry unacknowledged; the decision is saved with its acknowledgement |
| `OutboxLane.ReplyLane.CollectAll` | src/ficc/agent_outbox.py:15-45 | every listed entry is acknowledged, rejected or left by the outcome of its send, which is determined by what was on the bus and what fails; the agent record keeps exactly those acknowledgements |
| `AgentSpool.Spool.Write` | node/ficc_node/agent_spool.py:90-115 | a write is refused exactly for size or lack of room; it replaces or adds one file; a killed write leaves the old or the new file, and at most one more leftover |
| `AgentSpool.Spool.Inventory` | node/ficc_node/agent_spool.py:118-138 | the check of a reachable spool fails exactly when leftover scratch files push the folder over its entry limit |
| `AgentSpool.StaysAcceptable` | node/ficc_node/agent_spool.py:90-138 | over every run the check refuses exactly when files and leftovers exceed 2048 together, and never after at most 1024 killed writes |
| `AgentSpool.SpoolIsBounded` | node/ficc_node/agent_spool.py:90-115 | over every run at most 1024 files of at most 32 KiB and 8 MiB together, and no more leftovers than killed writes |
| `AgentSpool.RefusedForGood` | node/ficc_node/agent_spool.py:118-153 | nothing at all can be done to a spool exactly when no request is open and its check refuses it |
| `AgentSpool.KilledWritesCanCloseIt` | node/ficc_node/agent_spool.py:90-138 | a run with 1025 killed writes after which the spool is refused for good |
| `AuditPages.Page` | src/ficc/audit_state.py:67-84 | the paging loop returns the highest identity, the end of the page, and the rows and gaps of the selected page |
| `AuditPages.PageIsExact` | src/ficc/audit_state.py:67-84 | a page reports every retained row up to its end with its content, and as a gap every identity that is gone |
| `AuditPages.EntriesTile` | src/ficc/audit_state.py:72-83 | the entries ascend, are disjoint and cover exactly (after, through], at most two per selected row |
| `AuditPages.TilesMentionsOnce` | src/ficc/audit_state.py:72-83 | each identity in the range is mentioned by exactly one entry and no other identity by any |
| `AuditPages.TilesCount` | src/ficc/audit_delivery.py:121-124 | rows plus gap sizes equal the distance the cursor moves |
| `AuditPages.PageFits` | src/ficc/audit_sdk.py:41-58 | a batch built from a page is always acceptable: at most 128 entries, at most 65536 bytes once encoded, ordered bounds |
| `AuditModel.InvKept` | src/ficc/audit_delivery.py:107-165 | every step, failed or successful save, time-out, refusal and crash keeps the delivery invariant |
| `AuditSafety.SameSequenceSameBatch` | src/ficc/audit_delivery.py:107-165 | two appends under one sequence number carry the same batch across crashes and failed saves |
| `AuditSafety.BatchesFollowEachOther` | src/ficc/audit_delivery.py:121-124 | acknowledged batches are well formed, carry consecutive numbers, and each starts where the one before ended |
| `AuditSafety.CursorIsAccountedFor` | src/ficc/audit_delivery.py:121-126 | saved and current cursor equal delivered rows plus reported gap events, and never pass what was seen |
| `AuditSafety.HistoryIsToldOnce` | src/ficc/audit_state.py:67-84 | every identity up to the saved cursor is told in exactly one entry of exactly one acknowledged batch |
| `AuditSafety.SavedCheckpointIsReadable` | src/ficc/audit_state.py:40-60 | whatever a crash leaves passes the checks of a restart, exactly until the batch counter runs out |
| `AuditSafety.ReleasedIsDurable` | src/ficc/audit_delivery.py:73-126 | a request let through is an intent in an acknowledged batch that the saved checkpoint has passed |
| `AuditSafety.NothingIsUndone` | src/ficc/audit_delivery.py:107-126 | the saved sequence never decreases and acknowledged batches never change |
| `AuditSafety.WaitersAreServed` | src/ficc/audit_delivery.py:133-165 | over every run a request whose waiter has not given up is queued or its intent is in the batch being delivered |
| `AuditDelivery.Delivery.Ask` | src/ficc/audit_delivery.py:73-82 | admission is refused exactly for an unknown action, a closed poller, lag or sixteen waiters; otherwise the request is queued and waits |
| `AuditDelivery.Delivery.Require` | src/ficc/audit_delivery.py:73-96 | returns normally only when audit is not required or the request's intent lies in an acknowledged batch whose checkpoint is on disk; an undisturbed poller with nothing else to do needs one round |
| `AuditDelivery.Delivery.Persist` | src/ficc/audit_delivery.py:107-111 | a failed save leaves the old or the new checkpoint, keeps the poller dirty and refuses all waiters; a good save after an acknowledgement releases the active one |
| `AuditDelivery.Delivery.Send` | src/ficc/audit_delivery.py:113-131 | a successful send leaves the advanced checkpoint on disk with nothing pending, and releases the request it carried |
| `AuditDelivery.Delivery.LookForWork` | src/ficc/audit_delivery.py:140-160 | history behind the checkpoint is refused; otherwise the next batch has exactly the history of a page with the queue left alone, or the intent of the first request that still waits, which leaves the queue with everything before it, or the first event of the stream; without any of these nothing is built |
| `AuditDelivery.Delivery.Step` | src/ficc/audit_delivery.py:133-165 | a step first repairs a dirty checkpoint, then resends, then looks for work; success leaves the checkpoint saved; an idle step leaves nobody waiting; undisturbed, it is idle exactly without work and releases the first request that waits |
| `ReceiptsModel.InvKept` | node/ficc_node/vm_state.py:78-140 | for all five kinds, every durable write and provider call, and the gap between counting receipts and writing one, keeps the receipt invariant |
| `ReceiptsSafety.DispatchedAtMostOnce` | node/ficc_node/vm_state.py:86-118 | until a receipt is forgotten each of its targets is handed to the provider at most once |
| `ReceiptsSafety.ReceiptsAreBounded` | node/ficc_node/container_state.py:28-70 | over every run at most 1024 receipts exist under one lock, and at most one more per further profile where each profile has its own lock |
| `ReceiptsSafety.BoundIsReached` | node/ficc_node/admin_state.py:28-71 | for containers and administration a run of any number of profiles that ends with exactly that many receipts |
| `ReceiptsSafety.RowsAreHonest` | node/ficc_node/container_state.py:54-61 | a row reported not dispatched never was; outside module adapters a row with provider evidence was |
| `ReceiptsSafety.RefusedWasReported` | node/ficc_node/container_state.py:54-61 | over every run a row that says refused was reported refused by the provider, or was never dispatched and was either skipped or removed as such |
| `ReceiptsSafety.EveryRowHasAProof` | node/ficc_node/proxmox_state.py:108-124 | a row can be removed with some outcome exactly when its provider task is not running or unreadable and its state is one its kind can end in |
| `ReceiptsSafety.ForgottenWithProof` | node/ficc_node/admin_state.py:86-107 | every forgotten receipt had an allowed terminal outcome per row, and provider evidence for outcomes that need it |
| `ReceiptsSafety.KeepingIsRepeatable` | node/ficc_node/proxmox_state.py:108-129 | saving the outcomes leaves a receipt that accepts the same outcomes again and is unchanged by them |
| `ReceiptsSafety.InterruptedForgetSurvives` | node/ficc_node/adapter_journal.py:69-94 | in every continuation of a run, until the receipt is unlinked, an interrupted removal can be saved again and finished with the same outcomes |
| `ReceiptsStore.RowAfter` | node/ficc_node/container_state.py:72-80 | what a provider answer, error code or exception leaves in a row; only the three denial codes of a container provider count as refusals |
| `ReceiptsStore.Store.Handle` | node/ficc_node/container_state.py:27-70 | a second request under a held lock is refused as busy; an existing receipt is never dispatched again and its rows are read back one by one; conflicts, missing receipts, capacity and removals; undisturbed, a new batch is dispatched once per target and answered with what the provider says |
| `ReceiptsStore.Store.RereadAdapter` | node/ficc_node/adapter_journal.py:29-66 | a repeated adapter request must name original targets, is answered with those rows, as observed if they were, and changes no other row |
| `ReceiptsStore.Store.Reread` | node/ficc_node/proxmox_state.py:78-90 | row by row: dispatching reads unknown, queued reads refused and skipped, an accepted row with a seen task reads failed exactly when the task is broken, any other is unchanged; only a begun removal is refused |
| `ReceiptsStore.Store.Forget` | node/ficc_node/vm_state.py:121-140 | removal is refused exactly when some outcome is not proved by its row, with the proofs each kind accepts; the outcomes are saved first; a refusal changes nothing |
| `ReceiptsStore.Store.DispatchRows` | node/ficc_node/vm_state.py:106-117 | row by row, every row ends with what the provider said of it, and its dispatch was on disk first |
| `ReceiptsStore.Store.DispatchBatch` | node/ficc_node/admin_state.py:68-82 | a whole batch is marked before the one provider call; it ends with the provider's rows when they fit the batch and as unknown otherwise |
| `ArchiveModel.InvKept` | node/ficc_node/history.py:86-147 | every write of an archival, every crash, and whatever others write, remove or claim between dispatches keeps the archival invariant |
| `ArchiveModel.FingerprintsIdentify` | node/ficc_node/history_files.py:32-50 | equal recorded hashes mean equal files |
| `ArchiveModel.RecordedGroupsAreNeverLost` | node/ficc_node/history_files.py:95-108 | at every moment each recorded group that others left alone is in exactly one of namespace and archive, with its recorded hashes; it is in neither exactly when others removed it before it was moved, and in both exactly when others created it again after |
| `ArchiveModel.OwnerMovesLast` | node/ficc_node/history.py:138-145 | the owner changes only when every group is archived and verified and the manifest is written |
| `ArchiveModel.CompletionIsUninterrupted` | node/ficc_node/history.py:86-147 | a completed archival, however often interrupted, has the members and manifest of an uninterrupted one, and its owner unless others were given the namespace since; only what others created again is live |
| `ArchiveModel.RecordsAreFixed` | node/ficc_node/history.py:121-147 | the recorded members and manifest never change and nothing leaves the archive |
| `ArchiveModel.FinishesExactlyWhen` | node/ficc_node/history.py:86-147 | an interrupted archival has a continuation of its own steps to completion exactly when owner, live records and places of the recorded groups allow it |
| `ArchiveModel.BlockedWhileItStays` | node/ficc_node/history.py:130-137 | once unrecorded work lives beside an unfinished archival, that archival is not finished in any continuation in which nobody removes that work |
| `ArchiveModel.RemovalUnblocks` | node/ficc_node/editor.py:207-219 | a run in which unrecorded work blocks an archival, is removed, and the archival completes |
| `ArchiveModel.RemovedGroupIsMissed` | node/ficc_node/editor.py:207-219 | a run in which a recorded receipt is removed before it was moved and the archival cannot be finished |
| `ArchiveModel.NewOwnerCanBlock` | node/ficc_node/history.py:130-147 | a run that stops between the change of owner and completion, in which the next work then blocks the archival |
| `ArchiveNode.Helper.Dispatch` | node/ficc_node/history.py:86-147 | a repeated request is answered only if it can finish and denied only if it cannot: another owner, active, new or changed work, or a missing or duplicated recorded group; a denial changes nothing except that groups before the misplaced one are archived; otherwise it completes with the recorded members, or stops only when disturbed |
| `ArchiveNode.Helper.MoveGroups` | node/ficc_node/history_files.py:95-108 | the groups are moved in order, and the first one that is missing or duplicated is refused with the rest as it was; without one, every recorded group ends in the archive and none in the namespace |
| `ArchiveNode.Helper.VerifyArchive` | node/ficc_node/history.py:72-83 | the final verification of every group succeeds in every reachable state with a manifest |
| `ArchiveNode.Helper.Publish` | node/ficc_node/history.py:141-147 | published, owner and complete are saved in this order |
| `EditorModel.InvKept` | node/ficc_node/editor_save.py:73-137 | every write, outside replacement or rewrite, crash, inspection and cleanup keeps the save invariant |
| `EditorModel.ExchangedAtMostOnce` | node/ficc_node/editor_save.py:120-127 | the file is exchanged at most once over all retries, until the receipt is forgotten |
| `EditorModel.NoTextIsLost` | node/ficc_node/editor_save.py:100-127 | from the exchange until an explicit cleanup the submitted draft and the displaced object are both kept |
| `EditorModel.OutcomesAreSound` | node/ficc_node/editor.py:88-129 | `succeeded`, `conflict` and `failed` each mean what was published and displaced |
| `EditorModel.VerdictIsExact` | node/ficc_node/editor.py:104-127 | for an unresolved save, exactly which outcome the two files allow |
| `EditorModel.CleanupIsExplicit` | node/ficc_node/editor.py:146-194 | nothing is unlinked before the owner resolved the outcome, and never the published file |
| `EditorNode.Editor.Commit` | node/ficc_node/editor_save.py:27-137 | which saves are refused, unchanged: read-only, changed file, or no room beside the retained copies of other edits; a repeated request only inspects; undisturbed, any other save succeeds with the text in place and both copies kept |
| `EditorNode.Editor.WriteFile` | node/ficc_node/editor_save.py:53-70 | partial writes in a loop end with exactly the submitted text, or the copy is not used |
| `EditorNode.Editor.PublishCopies` | node/ficc_node/editor_save.py:112-127 | the exchange follows a second check and a saved unresolved record |
| `EditorNode.Editor.Inspect` | node/ficc_node/editor.py:88-129 | a stopped preparation becomes failed, with the truth about retained copies; settled outcomes are not changed; an unresolved save with both files readable gets the outcome those two files say |
| `EditorNode.Editor.Decide` | node/ficc_node/editor.py:104-127 | the outcome recorded for each combination of current and kept file |
| `EditorNode.Editor.Cleanup` | node/ficc_node/editor.py:146-194 | exactly which cleanups are refused; refusals change nothing and success leaves no copies |
| `JobsModel.InvKept` | node/ficc_node/jobs.py:95-175 | every write, launch, runner step, crash and reboot keeps the job invariant |
| `JobsModel.OneJobOneStart` | node/ficc_node/jobs.py:108-175 | at most one job is not terminal and each job is launched at most once |
| `JobsModel.OutputIsBounded` | node/ficc_node/jobs.py:124-141 | retained output never exceeds two gibibytes in all, nor 64 mebibytes per job, nor 256 receipts |
| `JobsModel.TerminalIsFinal` | node/ficc_node/jobs.py:26-78 | a terminal job has no process and its output and state no longer change |
| `JobsNode.Namespace.Submit` | node/ficc_node/jobs.py:108-175 | a known identity is never launched again; a different request under it is refused; a new identity is denied exactly when 256 receipts exist, the output limit would be passed, a job is not known to have ended, or the node lacks resources |
| `JobsNode.Namespace.Tally` | node/ficc_node/jobs.py:124-137 | the loop computes the reserved bytes and whether a job may still be active |
| `JobsNode.Namespace.Inspect` | node/ficc_node/jobs.py:26-78 | an outcome is newly recorded only for a job of another boot or one whose process is gone, and always for a job of another boot; undisturbed, for exactly these |
| `JobsNode.Namespace.Launch` | node/ficc_node/jobs.py:156-175 | the record is published before the single launch request, whose acknowledgement may be lost |
| `JobsNode.Namespace.RunnerActs` | node/ficc_node/job_runner.py:42-58 | a job process changes only its own job, its output files only grow and stay within the limit of one job, and it reports an end only when it is gone |
| `JobCapture.Capture` | node/ficc_node/job_process.py:11-55 | the files hold the first bytes read up to the limit; the reason names the first stop request; the group is killed exactly once its leader has exited or eight seconds after that request; it fails exactly when the service of an exited leader does not settle |
| `JobCapture.CaptureIsFaithful` | node/ficc_node/job_process.py:44-53 | kept plus dropped is everything read, each file is a prefix of its stream, and bytes are dropped only when the limit is reached |
| `JobCapture.KeptIsPrefix` | node/ficc_node/job_process.py:49-53 | per stream, the kept bytes are a prefix, and all of it below the limit |
| `NameCodec.NamesRoundTrip` | node/ficc_node/file_access.py:73-86 | every possible name round-trips within 340 characters, every other byte string is refused |
| `NameCodec.UnbaseEncode` | node/ficc_node/file_access.py:73-83 | decoding undoes the URL-safe encoding of any bytes |
| `NameCodec.OneCanonicalSpelling` | node/ficc_node/file_access.py:77-86 | a text that decodes is the encoder's own exactly when it has no standard-alphabet letters, no spare bits and no excess padding |
| `NameCodec.StandardAlphabetIsAccepted` | node/ficc_node/file_access.py:77-86 | a second spelling of a name with a letter of the standard alphabet |
| `NameCodec.SpareBitsAreAccepted` | node/ficc_node/file_access.py:77-86 | a second spelling of a name with spare bits in its last group |
| `NameCodec.ExcessPaddingIsAccepted` | node/ficc_node/file_access.py:77-86 | a second spelling with padding after a complete group, where the decoder accepts it |
| `FileListing.Sort` | node/ficc_node/file_actions.py:88-90 | the list is sorted in byte order with the same elements |
| `FileListing.Scan` | node/ficc_node/file_actions.py:78-90 | the bounded buffer holds the smallest limit + 1 names after the cursor, whatever the scan order |
| `FileListing.ListPage` | node/ficc_node/file_actions.py:68-105 | a page is an unbroken run of the remaining names, within limit and byte budget, with a cursor exactly when more are left |
| `FileListing.ListAll` | node/ficc_node/file_actions.py:68-105 | following the cursors shows every unreserved name exactly once in byte order, and ends |
| `KubernetesPages.List` | node/ficc_node/container_kubernetes.py:55-84 | for any page sizes of the server the inventory is the requested slice of the concatenated lists |
| `KubernetesPages.Fetch` | node/ficc_node/container_kubernetes.py:60-80 | one kind is read page by page up to the rows needed |
| `KubernetesPages.PagesTile` | node/ficc_node/container_kubernetes.py:82-84 | consecutive slices continue where the last ended and reach the end |
| `EngineLog.Collect` | node/ficc_node/container_engine.py:102-121 | the loop computes the demultiplexed output and terminates by growth of the offset |
| `EngineLog.DemuxUndoesFraming` | node/ficc_node/container_engine.py:102-121 | for any well-formed stream cut anywhere, the output is the start of the payloads up to one past the limit, and omissions are reported |
| `EngineLog.WholeStream` | node/ficc_node/container_engine.py:102-121 | for a whole stream, truncation is reported exactly when the limit omits payload |
| `WebSocket.FrameRoundTrip` | node/ficc_node/agent_rpc.py:53-60 | any accepted payload under any mask reads back unchanged at all three length forms |
| `WebSocket.HeaderRoundTrip` | node/ficc_node/agent_rpc.py:57-76 | each length form is read back, for every size the field can hold |
| `WebSocket.MaskTwice` | node/ficc_node/agent_rpc.py:56-59 | masking twice restores the payload |
| `WebSocket.Rpc.Frame` | node/ficc_node/agent_rpc.py:53-60 | a frame is refused exactly beyond the limit, otherwise one readable frame is written |
| `WebSocket.Rpc.ReceiveMessage` | node/ficc_node/agent_rpc.py:65-93 | the loop computes the specified message, leaves the rest unread and answers each ping in order |
| `WebSocket.ReceiveReassembles` | node/ficc_node/agent_rpc.py:65-93 | any legal fragmentation with interleaved control frames is reassembled exactly when it has no more frames than are read and every frame fits the limit with the data before it, and refused otherwise |
| `WebSocket.PingCanRefuseALegalMessage` | node/ficc_node/agent_rpc.py:65-93 | a text of the full limit, a one-byte ping and an empty last frame: a legal message within the limit that is refused |
| `DisplayRelay.Relay.Turn` | node/ficc_node/display_stream.py:29-46 | one turn over any ready events keeps both queues bounded and both streams in order and never reads zero bytes; every ready end is served, in both directions; after the provider closed, a turn in which the viewer accepts output shortens its queue |
| `DisplayRelay.Relay.Drain` | node/ficc_node/display_stream.py:21-46 | after the provider closed, a schedule of viewer writes as long as the queue ends the relay with everything delivered |
| `DisplayRelay.Relay.Run` | node/ficc_node/display_stream.py:17-46 | over any schedule each side receives a prefix of the other's bytes, at most one queue behind; the provider's end means all delivered; from the first turn that begins with the provider closed, a queue's worth of turns in which the viewer accepts output reaches that end |

## Left out

- File metadata: owners, modes, links, extended attributes and device numbers are reduced to an object identity, a regular-file flag and a content stamp.
- System calls that fail: modelled as a stopped helper; the reply code of such a failure is not modelled.
- Private folders: nobody but the helper changes a transfer or editor stage, an archive folder, a spool or a receipt directory.
- TransferNode.Node.Prepare: `statvfs` and `fallocate` are one answer about capacity; the legacy records without reserved bytes keep their truncation branch but are not created, so the refusal of an invalid prepared partial file is not modelled.
- TransferQuota.Begin: the preparation that follows an admission is TransferNode.Node.Prepare.
- TransferNode.Node.VerifyPrefix: cancellation is one possible refusal, not a channel of its own.
- DeliveryLane.AgentLane.Rebind: the confirmation that a Codex server owns the thread is not modelled.
- DeliveryLane.AgentLane.NodeExchange: deliveries and outbox entries of one exchange are modelled as two machines; the runtime status in the reply is not modelled.
- DeliveryLane.AgentLane.NextMessage: identities are numbers, whose order stands for the order of their fixed-length hexadecimal file names.
- A delayed exchange may still admit an item the controller has cancelled; the opposite is not claimed.
- OutboxLane.ReplyLane.Post: which credential, enrolment, capacity or reference check fails is given with the send, as is the schema of one message.
- OutboxLane.ReplyLane.PostForOther: the same checks for other senders are one given failure.
- OutboxSafety.BusIsCanonical: one run's messages; archival of a closed run, which deletes them, is not modelled.
- Refusals kept in the agent record are cut to sixteen in the code; the model keeps them all as history.
- AuditPages.PageFits: the size is an upper bound with the longest texts the code lets through, not the exact text.
- AuditDelivery.Delivery.Require: the twelve-second wait is a number of rounds; credentials and the five-second send limit are nondeterministic failures.
- Audit content is one opaque value per row; classification of unknown actions and outcomes and the hashing of identities are not modelled, nor are the version and stream fields of a batch.
- ReceiptsStore.Store.Handle: targets are positions in the batch; the binding compared under one digest is opaque; the 16 MiB that all adapter receipts may hold together (node/ficc_node/adapter_journal.py:54-55) are a possible capacity refusal.
- Provider effects: a provider may accept, refuse, fail or not answer; a dispatch is the call to it, whatever it then does.
- ArchiveModel.RecordedGroupsAreNeverLost: members are grouped directly rather than by path prefix; sizes, counts and the five-minute limit are not modelled.
- ArchiveModel.FinishesExactlyWhen: the identity of the next controller is fresh, so only the archival itself grants it the namespace; nobody else changes the archive folder.
- ArchiveNode.Helper.Dispatch: the scan that finds active work in the three namespaces is one answer, `quiet`.
- EditorModel.ExchangedAtMostOnce: `editor.forget` removes the receipt of a settled save without copies, after which the same identity could save again; that removal is not an action of the editor model.
- EditorModel.NoTextIsLost: the parent directory and the mode of the new file are not modelled.
- EditorNode.Editor.Commit: the retained copies of other edits are given as sizes; validation of the request and of the file's metadata is not modelled.
- JobsModel.OneJobOneStart: GPU reservations, free storage and the session lifetime are one given refusal; systemd is reduced to launched, running or gone.
- JobCapture.Capture: signals are the recorded reason and whether the group is killed; how a service settles is an answer per turn; the last kill before the leader is reaped is not modelled.
- FileListing.ListAll: an unchanged directory; the revision check that refuses a changed one is not modelled.
- KubernetesPages.List: rows are opaque and the server's lists do not change between pages.
- EngineLog.Collect: the TTY branch passes data through and is not modelled, nor is text decoding.
- WebSocket.Rpc.ReceiveMessage: the opening handshake, JSON and the matching of replies to calls are not modelled.
- DisplayRelay.Relay.Run: the clock is the length of the schedule; a failing descriptor ends the relay.
- Routes, schemas, command line, SSH transport, credentials, discovery, leases and backup: plumbing or single-branch checks.
