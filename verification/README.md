# Verified models of the batcher, Alt-DA, pre-image and fee logic

This project models four parts of the OP Stack monorepo and proves what they are for.

* **The batcher's channel manager.** L2 blocks wait in a queue with a cursor. They are packed into channels, channels
  emit frames, and frames are drawn into transactions. Failed transactions, on-chain timeouts, switches between
  calldata and blobs, and pruning rewind cursors or drop channels. The theorems say that no interleaving of these loses,
  doubles or reorders a block or a frame, and when each panic in the code can be reached.
* **The Alt-DA challenge tracker.** Commitments and challenges move through four queues and an index while L1 is read,
  looked ahead, reset and finalized. The tracker is compared with the ledger of what the challenge contract did in every
  block of the L1 chain, whether or not the tracker read that block or still remembers it. The theorems say what may be
  finalized, when an L2 reorg is demanded, and how long a missing input can stay pending.
* **The pre-image and hint streams.** Length-prefixed requests and replies over two byte streams that deliver arbitrary
  fragments, and the polling loops underneath.
* **The txpool automaton and the choice of DA type.** Two goroutines sharing a state they partly read without the lock,
  and an integer comparison of costs per byte.

## How it is organised

Code that updates objects is modelled twice. A *value module* (`Channels`, `Manager`, `SyncActions`, `DAState`,
`DAManager`) gives each operation as a function from old state to new state, and the theorems are about these functions.
A *live module* (`LiveChannels`, `LiveManager`, `LiveDA`, `FilePolling`, and the classes in `Txpool` and `DAChoice`) holds
classes with mutable fields and the loops of the source. Each of their methods is proved to compute the function of the
value module. Each value operation is pinned in turn by a lemma, named `...Exactly`, that says what it answers and changes
without its helpers: in terms of the plain fields before the call, of the ledger, and of what the outside world answers.

| file | content |
|---|---|
| `Prelude.dfy` | options, bytes, uint64 wrap-around, suffixes of sequences |
| `Channels.dfy`, `ChannelRuns.dfy`, `LiveChannels.dfy` | one channel with its builder, whole lives of it, and the object |
| `Manager.dfy`, `LiveManager.dfy` | the channel manager's operations, and the object |
| `ManagerInv.dfy`, `ManagerBuild.dfy`, `ManagerInvalidate.dfy`, `ManagerProgress.dfy` | its invariant, packing, invalidation, progress |
| `SyncActions.dfy` | deciding what to prune and load, and doing it |
| `ManagerAnswers.dfy` | what every call of the channel manager answers and changes |
| `ManagerRuns.dfy`, `ManagerReceipts.dfy`, `BatcherTheorems.dfy` | whole runs of the channel manager, late receipts, theorems from the start |
| `ManagerDrains.dfy` | end-to-end progress of repeated publishing |
| `ManagerCounterexamples.dfy` | runs of the channel manager that lose a block or panic |
| `Commitments.dfy`, `DAState.dfy`, `DAManager.dfy`, `LiveDA.dfy` | commitments, the challenge state and the manager, and the objects |
| `DAInv.dfy`, `DATracker.dfy` | the manager's operations against a ledger of the events it read |
| `DAChain.dfy`, `DARuns.dfy`, `DATheorems.dfy` | the contract's ledger of the whole chain, runs over it, theorems |
| `DAAnswers.dfy` | what every call of the Alt-DA manager answers and changes |
| `DANecessity.dfy`, `DAExactness.dfy` | continuations that go wrong, and the conditions on runs are exact |
| `DAHead.dfy` | what the finalized head covers |
| `DACounterexamples.dfy` | runs of the Alt-DA manager that finalize too much |
| `Duplex.dfy`, `Preimage.dfy` | any request/reply exchange, and the two codes |
| `FilePolling.dfy`, `PreimageSessions.dfy`, `PreimageMoves.dfy` | polling, the four endpoints, sessions between them, and polling as moves of the exchange |
| `Txpool.dfy` | the txpool automaton together with the channel manager |
| `DAChoice.dfy` | calldata or blobs |

## What turned out false, and exactly when

* Invalidating a queued channel whose first block was already pruned panics. The unsigned subtraction wraps, so the index
  is past the queue (`ManagerInvalidate.InvalidateNonEmpty`).
* Invalidating an empty channel drops newer channels without rewinding the block cursor, so their blocks are lost.
  Invalidation of a queued channel conserves blocks iff `CanInvalidate` (`InvalidateConserves`). A run of seven steps loses
  a block through a DA switch (`SwitchLosesBlock`).
* A confirmation that times out a pruned, empty channel drops the whole queue, because a channel that is not found counts
  as index 0 (`InvalidateUnqueuedEmpty`; a run: `PrunedConfirmLosesBlock`). One that times out a pruned channel with blocks
  always panics. `BatcherTheorems.ConfirmPanicsExactly` says when a confirmation panics, in every reachable state.
* `TxData` panics iff publishing is forced without a current channel, or the DA type switches while publishing is forced
  (the retry meets a nil current channel; a run: `ForcedSwitchPanics`), or it switches and the first block is pruned
  (`ManagerRuns.TxDataPanics`).
* A finality signal that prunes an expired challenge while its commitment is still tracked makes the commitment look
  unchallenged, and it is finalized (a run: `ExpiredCommitmentFinalized`). A signal is safe iff it does not do that
  (`SignalSafeExactly`, if no tracked commitment then has an unresolved challenge left and all finalized blocks are read;
  `CarelessFinality` for all states, where the commitment may have to be read again after a reset). The guarded part of the
  invariant survives a signal iff it does not do that (`DATracker.FinalizeInv`).
* After a full reset to block `base` the pipeline reads `base` again, but the manager does not load its challenge events a
  second time. A challenge made in `base` itself is lost: its commitment is used and finalized although the challenge
  expired (`ResetForgetsChallenge`). Even a challenge that was answered can be lost that way, if the answer is in a block
  that is not finalized when the commitment is, and an L1 reorg takes it away (`LateAnswerLost`). A commitment may be read iff
  every challenge against it that the manager has no record of was answered by block
  max(l1Finalized, min(challengeOrigin, inclusion + ChallengeWindow)), the condition `Known`: then the read is safe in every
  state (`CarefulIsSafe`). Otherwise legal steps from then on can finalize an expired commitment if nothing in the queue
  obstructs that (`ReadSafeExactly`, the if and only if), and in every state if, where a reorg drops the commitment, the
  reset goes back to its block and it is read once more (`CarelessRead`). Commitments included after `base` are fine
  (`LaterInclusionKnown`).
* The head that is handed out is the inclusion block of the last commitment pruned, and everything derived from L1 up to it
  is finalized. Other commitments of that block, or of earlier ones, may still be open: in a legal run one of them demands
  an L2 reorg below the head (`HeadAheadOfReorg`). The head is justified iff all commitments up to it that are still in the
  queue are settled by finalized L1 blocks (`HeadJustifiedExactly`).
* Challenge keys are injective on Keccak commitments (`KeccakKeyInjective`) but not on generic ones (`GenericKeysCollide`).
  A generic commitment can take a Keccak commitment's key (`GenericTakesKeccakKey`), and answering it then resolves the
  other's challenge with unchecked bytes (`GenericAnswerForgesInput`). The run theorems therefore require the contract's
  events to be about Keccak commitments.
* The documentation of `FilePoller` says that it polls until its context is done. The code looks at the context only after
  a missed deadline. `ReturnsExactly` says for every sequence of rounds when a call returns, `DoneContextReturns` when it
  does with a context that is done from the start.
* The batcher's readme (lines 108-111) says that the channel queue is cleared when a channel times out. The code keeps the
  channels older than the one that timed out, and the model follows the code (`InvalidateNonEmpty`).
* A hint of 2^32 bytes or more cannot be read back (`Preimage.HintingValid`, an if and only if).
* The cost comparison is done in 64-bit arithmetic up to the price. It is exact for every quote iff the calldata gas fits a
  signed 64-bit integer (`ExactIffFits`); for every larger frame `Misjudged` gives a quote that is decided wrongly. It is
  monotone in the blob base fee iff the condition of `MonotoneInBlobFee` holds.

## What the run theorems assume

The invariants hold in the starting states (`ManagerInv.InitialInv`, `DARuns.StartInv`, `Duplex.StartInv`), and the two
modules of counterexamples give concrete states and runs beyond them.

* L2 blocks have nonzero hashes, and a block naming another as its parent has the next number, at most 2^64 - 1.
* A new channel has a fresh id, and a channel never has more than 65535 frames.
* A DA switch or an on-chain timeout meets a channel with `CanInvalidate`, forced publishing has a current channel, and no
  switch happens while publishing is forced.
* Due dates of a channel are positive and fit into 64 bits (`ChannelRuns`), since 0 means unset.
* The challenge contract challenges a (commitment, block) at most once and within its challenge window, accepts answers
  only until the resolve window closes, and is used for Keccak commitments only.
* `ErrReorgRequired` is followed at once by a reset to a base not ahead of the challenge origin. L1 blocks are derived from
  in order, starting with the block of the last reset (op-node/rollup/derive/pipeline.go:124, 195), and only commitments of
  the block at hand are read, after `AdvanceL1Origin` has reached it (op-node/rollup/derive/altda_data_source.go:41-74).
  Between two full resets all blocks read are of one L1 chain; a full reset may switch to any chain that agrees on finalized
  blocks. The L1 finalized head never goes back.

Runs with these properties are *possible*: the head trails, resolved inputs verify, reorgs are demanded once and waiting is
bounded in every one of them. In *legal* runs, reads and finality signals are moreover careful in the sense above: `Known`,
and not `PrunesTracked`. Finalization safety is about these.

## Model

| member | source | states |
|---|---|---|
| Channels.NextTxDataGroup | op-batcher/batcher/channel.go:119-141 | the next transaction is the aligned group of frames at the cursor, short only in a closed channel |
| Channels.NextTxDataInv | op-batcher/batcher/channel.go:119-130 | drawing keeps frames numbered, transactions aligned and every frame below the cursor covered |
| Channels.TxFailedNoPanic | op-batcher/batcher/channel_builder.go:417-426 | the rewind panic is unreachable, and a failure moves the cursor back to the failed transaction's first frame |
| Channels.TxFailedInv | op-batcher/batcher/channel.go:44-57 | a failure never uncovers a frame below the rewound cursor |
| Channels.TxConfirmedInv | op-batcher/batcher/channel.go:61-92 | a confirmation keeps coverage, the earliest deadline and the span of inclusions |
| Channels.AddBlockInv | op-batcher/batcher/channel_builder.go:170-211 | adding a block, in every outcome, keeps the channel's invariant |
| Channels.OutputFramesInv | op-batcher/batcher/channel_builder.go:300-373 | emitting frames keeps earlier transactions intact, and a full channel ends up closed |
| Channels.FrameDelivered | op-batcher/batcher/channel.go:44-92 | every frame below the cursor is in a pending or confirmed transaction |
| Channels.FullySubmittedDelivered | op-batcher/batcher/channel.go:105-107 | a fully submitted channel has every frame in a confirmed transaction |
| Channels.ResubmissionStable | op-batcher/batcher/channel_builder.go:405-426 | two draws that share a frame are the same transaction, whatever failed in between |
| Channels.DrawnIsAlignedGroup | op-batcher/batcher/channel_config.go:95-100 | every draw is the group [k*n, min((k+1)*n, total)) with n = MaxFramesPerTx |
| Channels.TimeoutMeansDeadlineReached | op-batcher/batcher/channel_builder.go:247-262 | CheckTimeout fills an open channel iff a registered deadline is reached, with that deadline's reason |
| Channels.TimedOutMeansSpread | op-batcher/batcher/channel.go:97-102 | a channel is timed out iff two recorded inclusions are at least ChannelTimeout apart |
| Channels.ReadyExactly | op-batcher/batcher/channel.go:119-141 | data is ready iff a whole transaction's frames are left, or any in a full channel; a draw takes that many frames from the cursor on and makes them pending under their ids |
| Channels.SubmittedExactly | op-batcher/batcher/channel.go:105-111 | nothing was submitted iff nothing is pending or confirmed; everything was iff the channel is full, nothing is pending and no frame is left to draw |
| Channels.NewExactly | op-batcher/batcher/channel_builder.go:92-104 | a new channel is open and empty and due its maximum duration after the given L1 block |
| Channels.AddBlockExactly | op-batcher/batcher/channel_builder.go:170-211 | a block is added iff the channel is open and the channel out accepts it; full channels and refusals answer ChannelFull; anything else is an error that changes nothing |
| Channels.CloseExactly | op-batcher/batcher/channel_builder.go:376-380 | closing fills an open channel and changes nothing else |
| Channels.OutputFramesExactly | op-batcher/batcher/channel_builder.go:300-373 | one frame per chunk of the channel out is appended, in order, with its bytes and the next number, unless the channel out is closed or cannot be closed; when it succeeds and what becomes full or closed |
| Channels.TxConfirmedExactly | op-batcher/batcher/channel.go:61-92 | a pending transaction becomes confirmed at its inclusion block, any other confirmation changes nothing |
| Channels.DrawnBytes | op-batcher/batcher/channel_builder.go:346-372 | every frame drawn carries the bytes the channel out produced for its number |
| Channels.SubmittedBytes | op-batcher/batcher/channel_builder.go:346-372 | so does every frame of a pending or confirmed transaction |
| ChannelRuns.StepTimely | op-batcher/batcher/channel_builder.go:216-252 | every operation keeps the timeout the earliest due date, computed from duration, blocks and inclusions |
| ChannelRuns.ClosedWhenDue | op-batcher/batcher/channel_builder.go:216-262 | in every life of a channel, an open channel is closed at an L1 block iff one of its due dates has been reached |
| ChannelRuns.FramesCarryOutput | op-batcher/batcher/channel_builder.go:300-373 | in every life of a channel its frames are in order exactly what the channel out produced, and every frame drawn or confirmed, whatever failed before, carries the bytes for its number |
| LiveChannels.LiveChannel.constructor | op-batcher/batcher/channel.go:29-40 | a new channel with its duration deadline registered |
| LiveChannels.LiveChannel.IsTimedOut | op-batcher/batcher/channel.go:97-102 | agrees with the value model |
| LiveChannels.LiveChannel.UpdateTimeout | op-batcher/batcher/channel_builder.go:247-253 | the object computes the value model's operation |
| LiveChannels.LiveChannel.AddBlock | op-batcher/batcher/channel_builder.go:170-211 | the object computes the value model's operation, in all four outcomes |
| LiveChannels.LiveChannel.CheckTimeout | op-batcher/batcher/channel_builder.go:257-262 | the object computes the value model's operation |
| LiveChannels.LiveChannel.Close | op-batcher/batcher/channel_builder.go:376-380 | the object computes the value model's operation |
| LiveChannels.LiveChannel.OutputFrame | op-batcher/batcher/channel_builder.go:346-372 | the object computes the value model's operation, with the uint16 frame number and the bytes that Channels.OutputFramesExactly fixes |
| LiveChannels.LiveChannel.OutputFrames | op-batcher/batcher/channel_builder.go:300-341 | the output loops compute the value model's operation, fixed by Channels.OutputFramesExactly |
| LiveChannels.LiveChannel.NextTxData | op-batcher/batcher/channel.go:119-130 | the loop over frames draws exactly the group at the cursor and records it as pending |
| LiveChannels.LiveChannel.RewindFrameCursor | op-batcher/batcher/channel_builder.go:417-426 | rewinds, or panics exactly when the frame is unknown |
| LiveChannels.LiveChannel.TxFailed | op-batcher/batcher/channel.go:44-57 | the object computes the value model's operation |
| LiveChannels.LiveChannel.TxConfirmed | op-batcher/batcher/channel.go:61-92 | the object computes the value model's operation and reports a timeout of a known transaction only |
| Manager.IndexOfFirst | op-batcher/batcher/channel_manager.go:167-174 | the search loop's index is the channel's first position |
| ManagerInv.DrawInv | op-batcher/batcher/channel_manager.go:202-216 | drawing indexes the new transaction and leaves the blocks to deliver as they were |
| ManagerInv.TxFailedInv | op-batcher/batcher/channel_manager.go:99-108 | a failure never panics, keeps the index exact and the blocks to deliver as they were |
| ManagerInv.RecordConfirmedInv | op-batcher/batcher/channel_manager.go:111-124 | recording a confirmation keeps the index exact and the blocks to deliver as they were |
| ManagerBuild.EnsureChannelWithSpaceInv | op-batcher/batcher/channel_manager.go:349-385 | the current channel afterwards has space, other channels are untouched, no block moves |
| ManagerBuild.AddBlocksInv | op-batcher/batcher/channel_manager.go:423-446 | the channel gains exactly the first n blocks in order and nothing else of it changes |
| ManagerBuild.ProcessBlocksInv | op-batcher/batcher/channel_manager.go:399-447 | blocks move from the queue's cursor to the end of the current channel, none lost, doubled or reordered |
| ManagerBuild.RegisterL1BlockInv | op-batcher/batcher/channel_manager.go:388-396 | registering an L1 block keeps blocks, frames and index |
| ManagerBuild.OutputFramesInv | op-batcher/batcher/channel_manager.go:450-495 | emitting frames restores the full invariant and moves no block |
| ManagerBuild.GetReadyChannelInv | op-batcher/batcher/channel_manager.go:287-344 | it crashes iff publishing is forced without a current channel; a channel it returns is queued and has data |
| ManagerProgress.ProcessesUntilFull | op-batcher/batcher/channel_manager.go:399-447 | processBlocks stops without an error only at a full channel or at the end of the queue |
| ManagerProgress.OldestChannelFirst | op-batcher/batcher/channel_manager.go:287-344 | the oldest channel with data is returned, and EOF means no queued channel has any |
| ManagerDrains.PublishLeft | op-batcher/batcher/channel_manager.go:227-344 | every ordinary call draws a transaction, packs blocks or fills the channel, unless nothing is left to do, and then it changes nothing |
| ManagerDrains.PublishingDrains | op-batcher/batcher/channel_manager.go:227-447 | with B unpacked blocks and F frames drawn on the way, after more than 2 * B + 1 + F ordinary calls every block is packed and every ready transaction drawn |
| ManagerAnswers.AddL2BlockExactly | op-batcher/batcher/channel_manager.go:497-508 | a block is refused iff it does not extend the last one loaded, and otherwise appended |
| ManagerAnswers.ClearExactly | op-batcher/batcher/channel_manager.go:78-91 | only the configuration and the channels that receipts may name survive, and the next duration counts from the given L1 block |
| ManagerAnswers.OpenExactly | op-batcher/batcher/channel_manager.go:349-385 | a channel is opened iff there is no open one; it has the current configuration, is last in the queue and is due its maximum duration after the L1 origin sent last |
| ManagerAnswers.AddBlocksExactly | op-batcher/batcher/channel_manager.go:423-446 | the channel takes accepted blocks in order until one fills it, one is refused, the channel out breaks, or none is left |
| ManagerAnswers.FillExactly | op-batcher/batcher/channel_manager.go:311-344 | packing, then the deadlines unless they are to be ignored, then frames; it fails iff the factory, the packing or the output does, and answers the current channel iff that has data |
| ManagerAnswers.ReadyExactly | op-batcher/batcher/channel_manager.go:287-344 | a channel without frames is closed first iff publishing is forced; the first channel with data is answered, and blocks are packed iff there is none and some are left |
| ManagerAnswers.DrawExactly | op-batcher/batcher/channel_manager.go:202-216 | the next frames are sent and indexed under their ids, and the next duration counts from the newest L1 origin sent |
| ManagerAnswers.SwitchExactly | op-batcher/batcher/channel_manager.go:227-267 | once something of the first ready channel is pending or confirmed its next transaction is drawn and configuration and queue stay; the configuration changes iff nothing is and the DA type differs |
| ManagerAnswers.TxDataExactly | op-batcher/batcher/channel_manager.go:227-267 | the answer in every case, before and after a switch |
| ManagerAnswers.InvalidateExactly | op-batcher/batcher/channel_manager.go:154-197 | the channel and all newer ones leave the queue and their transactions the index, the current channel is reset, and the cursor is back at the channel's first block, if it has one |
| ManagerAnswers.FailExactly | op-batcher/batcher/channel_manager.go:99-108 | a failed transaction is no longer pending or indexed and its frames are drawn again |
| ManagerAnswers.ConfirmExactly | op-batcher/batcher/channel_manager.go:111-127 | a confirmed transaction is recorded at its block, and the channel invalidated iff two inclusions are ChannelTimeout apart |
| ManagerInvalidate.RewindIndex | op-batcher/batcher/channel_manager.go:130-150 | the wrapping subtraction points at the block with that hash iff the block is not older than the queue, and otherwise past the queue |
| ManagerInvalidate.InvalidateNonEmpty | op-batcher/batcher/channel_manager.go:130-198 | panics iff the first block was pruned; otherwise the cursor lands on that block and exactly the older channels remain |
| ManagerInvalidate.InvalidateConserves | op-batcher/batcher/channel_manager.go:153-198 | no panic and no block lost, doubled or reordered iff CanInvalidate |
| ManagerInvalidate.LateReceiptsIgnored | op-batcher/batcher/channel_manager.go:153-198 | directly after any invalidation, also one that loses blocks, a receipt for a dropped channel changes nothing |
| ManagerInvalidate.InvalidateUnqueuedEmpty | op-batcher/batcher/channel_manager.go:153-198 | invalidating a pruned, empty channel keeps the blocks iff no queued channel holds any |
| SyncActions.ComputeSyncActions | op-batcher/batcher/sync_actions.go:54-187 | the two scans with early exit compute the decision that SyncAndPruneInv and SyncAndPruneExactly describe, and report out of sync iff the status is empty or reversed |
| SyncActions.AllPruned | op-batcher/batcher/sync_actions.go:143-187 | when the safe head reaches the cursor, every channel is among those to prune |
| SyncActions.PruneInv | op-batcher/batcher/channel_manager.go:524-557 | pruning blocks and then channels never panics and drops only safe blocks, from the front |
| SyncActions.ClearInv | op-batcher/batcher/channel_manager.go:78-91 | clearing leaves a good, empty state |
| SyncActions.SyncAndPruneInv | op-batcher/batcher/driver.go:460-485 | for every sync status: no panic, unsafe blocks kept in order unless the state is restarted; blocks are loaded from right after the newest one kept up to the unsafe head, and none iff the status is unusable or the unsafe head is not newer |
| SyncActions.RestartsExactly | op-batcher/batcher/sync_actions.go:92-160 | the state is restarted iff blocks are loaded, the status is usable, and the safe head is neither right below them nor one of them, or a channel confirmed in time before the derived L1 block holds an unsafe block |
| SyncActions.SyncAndPruneExactly | op-batcher/batcher/driver.go:460-485 | otherwise exactly the safe blocks go, and the channels before the first one with an unsafe block; after a restart the next duration counts from the safe head's L1 origin |
| ManagerRuns.TxDataPanics | op-batcher/batcher/channel_manager.go:227-267 | the exact condition under which TxData panics |
| ManagerRuns.TxDataInv | op-batcher/batcher/channel_manager.go:227-267 | with or without a DA switch, the blocks to deliver stay as they were |
| ManagerRuns.AddL2BlockInv | op-batcher/batcher/channel_manager.go:497-508 | an accepted block extends the chain to deliver by exactly itself |
| ManagerRuns.TxConfirmedInv | op-batcher/batcher/channel_manager.go:111-127 | a confirmation, also one that times the channel out, keeps the blocks to deliver |
| ManagerRuns.StepInv | op-batcher/batcher/channel_manager.go:78-557 | one legal step of any kind: no panic, invariant kept, only safe blocks dropped from the front, only the loaded one added |
| ManagerRuns.RunInv | op-batcher/batcher/channel_manager.go:78-557 | every legal run ends without a panic in a good state |
| ManagerRuns.RunConservesBlocks | op-batcher/readme.md:96-111 | over a run, the blocks to deliver are the old ones plus those loaded, in order and each once, less a safe prefix |
| ManagerRuns.BlockPlaced | op-batcher/readme.md:31-33 | a queued block is in a channel iff it is below the cursor |
| ManagerRuns.BlockHeldOnce | op-batcher/readme.md:96-111 | no block is held twice |
| BatcherTheorems.BlocksInOrder | op-batcher/batcher/channel_manager.go:130-198 | in every reachable state the processed blocks are a suffix of the blocks held in queue order, all blocks form one parent-hash chain, and the current channel is nil or the last |
| BatcherTheorems.BlocksConserved | op-batcher/batcher/channel_manager.go:287-447 | from the start, exactly the loaded blocks less a safe prefix remain to deliver |
| BatcherTheorems.FramesDelivered | op-batcher/batcher/channel.go:44-141 | in every reachable state and every channel, frames below the cursor are in a pending or confirmed transaction, and in a confirmed one once fully submitted, and carry what the channel out produced |
| BatcherTheorems.FrameAlwaysInSameTx | op-batcher/batcher/channel.go:119-141 | in every run a frame was only ever sent under one transaction id |
| BatcherTheorems.SentBytes | op-batcher/batcher/channel_builder.go:346-372 | in every reachable state each frame a channel ever sent carries exactly the bytes its channel out produced for the frame's number |
| BatcherTheorems.TxIndexAgrees | op-batcher/batcher/channel_manager.go:99-124 | for a queued channel, a transaction is pending iff the index maps it to that channel |
| BatcherTheorems.ConfirmPanicsExactly | op-batcher/batcher/channel_manager.go:111-150 | in every reachable state a confirmation panics iff it times out a pruned channel with blocks, or a queued one whose first block was pruned |
| ManagerReceipts.PublishFollows | op-batcher/batcher/channel_manager.go:227-385 | drawing, with or without a DA switch, brings only new channels into the queue, leaves channels outside it alone and indexes queued channels only |
| ManagerReceipts.LateReceiptsIgnored | op-batcher/batcher/channel_manager.go:99-198 | however long after an invalidation, in every run, a receipt for any dropped channel leaves the manager as it is |
| ManagerReceipts.RunPassed | op-batcher/batcher/sync_actions.go:143-187 | in every run, the first block of a channel that left the queue with a transaction pending lies before all blocks loaded or to be loaded |
| ManagerReceipts.ConfirmPanics | op-batcher/batcher/channel_manager.go:111-150 | the exact condition under which TxConfirmed panics, for queued and pruned channels |
| ManagerCounterexamples.SwitchLosesBlock | op-batcher/batcher/channel_manager.go:153-198 | a seven-step run in which a DA switch invalidates an empty channel and the block of a newer one is lost |
| ManagerCounterexamples.PrunedConfirmLosesBlock | op-batcher/batcher/channel_manager.go:111-198 | a seven-step run in which confirming a pruned, empty channel one block too late drops the queue and loses a block |
| ManagerCounterexamples.ForcedSwitchPanics | op-batcher/batcher/channel_manager.go:227-294 | a three-step run in which a DA switch while publishing is forced panics |
| LiveManager.ChannelManager.constructor | op-batcher/batcher/channel_manager.go:60-70 | starts in the initial state |
| LiveManager.ChannelManager.AddL2Block | op-batcher/batcher/channel_manager.go:497-508 | the object computes the value model's operation; a refused block changes nothing |
| LiveManager.ChannelManager.Clear | op-batcher/batcher/channel_manager.go:78-91 | the object computes the value model's operation |
| LiveManager.ChannelManager.PruneSafeBlocks | op-batcher/batcher/channel_manager.go:524-541 | the object computes the value model's operation, including its panic |
| LiveManager.ChannelManager.PruneChannels | op-batcher/batcher/channel_manager.go:545-557 | the loop that clears the current channel computes the value model's operation |
| LiveManager.ChannelManager.RewindToBlock | op-batcher/batcher/channel_manager.go:130-150 | the object computes the value model's operation, including its panics |
| LiveManager.ChannelManager.HandleChannelInvalidated | op-batcher/batcher/channel_manager.go:153-198 | the search loop and the two nested deletion loops compute the value model's operation |
| LiveManager.ChannelManager.TxFailed | op-batcher/batcher/channel_manager.go:99-108 | the object computes the value model's operation |
| LiveManager.ChannelManager.TxConfirmed | op-batcher/batcher/channel_manager.go:111-127 | the object computes the value model's operation |
| LiveManager.ChannelManager.EnsureChannelWithSpace | op-batcher/batcher/channel_manager.go:349-385 | the object computes the value model's operation |
| LiveManager.ChannelManager.ProcessBlocks | op-batcher/batcher/channel_manager.go:399-447 | the loop over blocks computes the value model's operation, also when it ends in an error |
| LiveManager.ChannelManager.GetReadyChannel | op-batcher/batcher/channel_manager.go:287-344 | the object computes the value model's operation |
| LiveManager.ChannelManager.NextTxData | op-batcher/batcher/channel_manager.go:202-216 | the object computes the value model's operation |
| LiveManager.ChannelManager.TxData | op-batcher/batcher/channel_manager.go:227-267 | the object computes the value model's operation, fixed by ManagerAnswers.TxDataExactly and SwitchExactly |
| Commitments.DecodeOfEncode | op-alt-da/commitment.go:73-115 | decoding an encoded commitment gives it back iff it is well formed |
| Commitments.EncodeOfDecode | op-alt-da/commitment.go:73-88 | whatever decodes is the encoding of what it decodes to |
| Commitments.KeyInjective | op-alt-da/dastate.go:40-46 | keys of commitments of equal length determine commitment and block |
| Commitments.KeccakKeyInjective | op-alt-da/dastate.go:44-46 | keys of Keccak commitments are equal iff commitment and block are |
| Commitments.GenericKeysCollide | op-alt-da/dastate.go:44-46 | two generic commitments in different blocks with the same key |
| Commitments.GenericTakesKeccakKey | op-alt-da/dastate.go:44-46 | a generic commitment with the key of a Keccak commitment |
| DAInv.LookupExact | op-alt-da/dastate.go:130-133 | looking a commitment up finds its own challenge and no other |
| DAInv.CreateTracks | op-alt-da/dastate.go:97-106 | a new challenge keeps index, queues and ledger in agreement |
| DAInv.ResolveTracks | op-alt-da/dastate.go:109-117 | an accepted answer, also in the last block of its window, resolves the challenge with bytes that hash to the commitment |
| DAInv.EventsTrack | op-alt-da/damgr.go:330-392 | all events of a block together keep the tracker in agreement with the ledger |
| DAInv.PrefixIsFilter | op-alt-da/dastate.go:188-207 | stopping at the first open challenge selects exactly the challenges that ended |
| DAInv.ExpireTracks | op-alt-da/dastate.go:188-207 | after block n every challenge with end <= n is resolved or expired and every other one is still queued |
| DATracker.LedgerGrowth | op-alt-da/damgr.go:337-392 | a challenge is never forgotten, redated or changed after its window |
| DATracker.NotReindexed | op-alt-da/damgr.go:337-392 | a challenge whose record was dropped never enters the index again, whatever events follow |
| DATracker.AdvanceChallengeInv | op-alt-da/damgr.go:263-282 | reading one more block, also when fetching fails, keeps what every step keeps and what careful steps keep |
| DATracker.AdvanceCommitmentInv | op-alt-da/damgr.go:285-305 | so does expiring commitments, with or without ErrReorgRequired |
| DATracker.ExpiringIsCleanOrFlagged | op-alt-da/dastate.go:153-184 | a flagged commitment's challenge expired unanswered; one that expires without a flag was resolved or unchallenged through its window iff its expired challenge was not forgotten |
| DATracker.ReorgRequiredOnce | op-alt-da/damgr.go:285-305 | ErrReorgRequired is answered iff an expired challenge is met, for keys that never required a reorg before |
| DATracker.GetInputInv | op-alt-da/damgr.go:193-259 | any read, whatever storage and L1 answer, keeps what every step keeps, and it keeps what careful steps keep iff no expired challenge against the commitment was forgotten |
| DATracker.ForgottenLater | op-alt-da/damgr.go:162-169 | a forgotten challenge stays forgotten when more blocks are read |
| DATracker.ResolvedInputVerified | op-alt-da/damgr.go:242-252 | bytes answered from a resolved challenge hash to the requested commitment |
| DATracker.ResetInv | op-alt-da/damgr.go:172-189 | an L2 reorg keeps the challenges and drops the commitments; a full reset leaves a tracker that knows nothing |
| DATracker.FinalizeInv | op-alt-da/damgr.go:141-157 | any finality signal keeps what every step keeps, and it keeps what careful steps keep iff no expired challenge of a tracked commitment is pruned |
| DATracker.FinalizedHead | op-alt-da/damgr.go:117-122 | the finalized head is the last commitment finalized |
| DATracker.PendingAdvances | op-alt-da/damgr.go:193-259 | a pending answer advances the challenge origin by exactly one and is given only before both windows are over |
| DAChain.TruthGrows | op-alt-da/dastate.go:16-36 | along the chain no challenge is forgotten or redated, and none changes after its window |
| DAChain.SeenNext | op-alt-da/damgr.go:330-392 | what can be known after starting over is the ledger less the challenges made up to then, and each block adds to both alike |
| DAChain.SettledForever | op-alt-da/dastate.go:147-152 | a commitment answered, or unchallenged through its window, expires unanswered at no block of the chain |
| DARuns.AdvanceStep | op-alt-da/damgr.go:263-327 | advancing the L1 origin, with or without ErrReorgRequired, keeps the invariant over the chain |
| DARuns.ReadStep | op-alt-da/damgr.go:193-259 | reading a commitment without an unknown challenge, or with one answered before the commitment can be finalized, keeps the invariant over the chain |
| DARuns.RebaseStep | op-alt-da/damgr.go:172-189 | both kinds of reset keep it, and what is finalized stays settled on every chain with the same finalized blocks |
| DARuns.FinalizeStep | op-alt-da/dastate.go:210-258 | a finality signal finalizes only commitments settled by finalized L1 blocks |
| DARuns.StepBase | op-node/rollup/derive/altda_data_source.go:36-104 | every possible step, careful or not, keeps the manager in step with the ledger of the chain it reads |
| DARuns.RunBase | op-node/rollup/derive/altda_data_source.go:36-104 | so does every possible run |
| DARuns.StepInv | op-alt-da/damgr.go:117-327 | every legal step keeps the invariant over the chain |
| DARuns.RunInv | op-alt-da/damgr.go:117-327 | every legal run keeps the invariant over the chain |
| DATheorems.NothingExpiredIsFinalized | op-alt-da/dastate.go:153-258 | over every legal run with any resets, the challenge of a commitment pruned as final expires unanswered at no block of the L1 chain |
| DATheorems.KnownExactly | op-alt-da/damgr.go:193-207 | what makes a commitment unknown is a challenge from before the last full reset not answered in time, or an expired one that was forgotten |
| DATheorems.LaterInclusionKnown | op-alt-da/damgr.go:180-187 | commitments included after the block of the last full reset can be read, unless an expired challenge was forgotten |
| DATheorems.HeadTrails | op-alt-da/damgr.go:117-157 | over every possible run, the finalized head is unset or trails the L1 finalized head by at least the smaller window |
| DATheorems.ResolvedInputsVerify | op-alt-da/damgr.go:337-392 | after every possible run, an input from a resolved challenge hashes to the requested commitment |
| DATheorems.DemandsAreNew | op-alt-da/damgr.go:285-305 | after every possible run, ErrReorgRequired is for challenges that expired unanswered on the chain, none of them named before |
| DATheorems.DemandedOnce | op-alt-da/damgr.go:172-207 | between full resets, a commitment of a block demands an L2 reorg at most once in every possible run |
| DATheorems.BoundedWaiting | op-alt-da/damgr.go:162-282 | at most inclusion + ChallengeWindow + ResolveWindow + 1 - challengeOrigin pending answers, in every possible run without a full reset |
| DAAnswers.ReadExactly | op-alt-da/damgr.go:193-259 | a read is refused iff the type is not allowed or the challenge on record expired unanswered; otherwise it answers storage's data or error, and without data the posted input, lost data or a pending challenge, each iff a condition on ledger, origin and windows; it tracks the commitment unless refused |
| DAAnswers.ReadsAnswer | op-alt-da/damgr.go:193-259 | so in every possible run, with the contract's ledger of the whole chain |
| DAAnswers.AdvanceExactly | op-alt-da/damgr.go:263-327 | a reorg is required iff a commitment that is due has an open challenge; which commitments expire, how the origins move, and when the head is taken from the L1 finalized head, one challenge window back |
| DAAnswers.ExpireExactly | op-alt-da/dastate.go:153-184 | exactly the leading commitments due by the block expire, and a reorg is required iff one has an open challenge on record |
| DAAnswers.FinalizeExactly | op-alt-da/damgr.go:141-157 | exactly the leading commitments due by the signal are finalized, the head is the last one's inclusion block, and exactly the challenges over by then are forgotten |
| DANecessity.DoomedIsFinalized | op-alt-da/dastate.go:153-258 | with the commitment in the queue, its challenge unknown and no answer on the chain, possible steps finalize it and its challenge expires; if a reorg is required on the way they go back to its block and read it again |
| DANecessity.CalmIsFinalized | op-alt-da/dastate.go:153-258 | if the commitment is in the queue and nothing in front of it can force a reorg, legal steps do so without another read |
| DANecessity.LateIsFinalized | op-alt-da/dastate.go:218-241 | with the answer in a block after the signal, and a queue that has expired by then, legal steps finalize the commitment and an L1 reorg lets its challenge expire |
| DANecessity.ForceReset | op-alt-da/dastate.go:153-184 | a later commitment that is challenged in its own block always forces a reorg, which empties the queue and leaves what is unknown unknown |
| DANecessity.LateAfterReset | op-alt-da/damgr.go:172-179 | so with a late answer, too, the commitment can be read again alone in the queue and finalized in every state |
| DAExactness.CarefulIsSafe | op-alt-da/damgr.go:193-259 | after a careful step in any state, no legal run on any chain that agrees with what is read or finalized prunes an expired commitment |
| DAExactness.ReadSafeExactly | op-alt-da/damgr.go:193-207 | a read is safe in that sense iff the commitment is known, when the queue is empty or nothing tracked is unresolved and an answer, if there is one, comes after the queue has expired |
| DAExactness.CarelessRead | op-alt-da/damgr.go:193-207 | in every state, after every read of an unknown commitment, a possible continuation finalizes it and its challenge expires; where a reorg drops it, the reset goes back to its block and it is read again |
| DAExactness.SignalSafeExactly | op-alt-da/dastate.go:210-258 | a finality signal is safe iff it prunes no expired challenge of a tracked commitment, when nothing tracked can force a reorg and all finalized blocks are read |
| DAExactness.CarelessFinality | op-alt-da/dastate.go:210-258 | in every state, after every signal that does prune one, a possible continuation finalizes an expired commitment |
| DAHead.HeadJustifiedExactly | op-alt-da/damgr.go:117-157 | every commitment L2 is derived from up to the head is safe on every chain with the same finalized blocks iff those still in the queue up to the head are settled by finalized blocks |
| DAHead.NothingLeftIsJustified | op-node/rollup/finality/finalizer.go:241-256 | in every legal run the head is justified when no commitment up to it is left in the queue |
| DACounterexamples.ExpiredCommitmentFinalized | op-alt-da/dastate.go:210-258 | a seven-step run in which an expired commitment is finalized after its challenge was pruned |
| DACounterexamples.ResetForgetsChallenge | op-alt-da/damgr.go:172-187 | a five-step run in which a full reset to the block of the challenge leads to the same |
| DACounterexamples.LateAnswerLost | op-alt-da/damgr.go:172-207 | an eight-step run in which a commitment is read and finalized while the answer to its forgotten challenge is on the chain, and an L1 reorg takes the answer away |
| DACounterexamples.HeadAheadOfReorg | op-alt-da/damgr.go:117-122 | a legal run in which a commitment of the finalized head's own block demands an L2 reorg |
| DACounterexamples.GenericAnswerForgesInput | op-alt-da/damgr.go:365-384 | an answer for a generic commitment resolves a Keccak challenge with unchecked bytes |
| LiveDA.LiveState.ClearCommitments | op-alt-da/dastate.go:81-84 | the object computes the value model's operation |
| LiveDA.LiveState.Reset | op-alt-da/dastate.go:87-93 | the object computes the value model's operation |
| LiveDA.LiveState.CreateChallenge | op-alt-da/dastate.go:97-106 | the object computes the value model's operation, sharing the new challenge between queue and index |
| LiveDA.LiveState.ResolveChallenge | op-alt-da/dastate.go:109-117 | resolving through the index is seen through the queues |
| LiveDA.LiveState.TrackCommitment | op-alt-da/dastate.go:120-127 | the object computes the value model's operation |
| LiveDA.LiveState.ExpireCommitments | op-alt-da/dastate.go:153-184 | the queue-popping loop computes the value model's operation |
| LiveDA.LiveState.ExpireChallenges | op-alt-da/dastate.go:188-207 | the queue-popping loop computes the value model's operation |
| LiveDA.LiveState.PruneCommitments | op-alt-da/dastate.go:218-241 | the queue-popping loop computes the value model's operation |
| LiveDA.LiveState.PruneChallenges | op-alt-da/dastate.go:245-258 | the queue-popping loop computes the value model's operation |
| LiveDA.LiveDA.LoadChallengeEvents | op-alt-da/damgr.go:330-392 | the loop over a block's events computes the value model's operation |
| LiveDA.LiveDA.AdvanceChallengeOrigin | op-alt-da/damgr.go:263-282 | the object computes the value model's operation |
| LiveDA.LiveDA.AdvanceCommitmentOrigin | op-alt-da/damgr.go:285-305 | the object computes the value model's operation |
| LiveDA.LiveDA.AdvanceL1Origin | op-alt-da/damgr.go:311-327 | the object computes the value model's operation |
| LiveDA.LiveDA.LookAhead | op-alt-da/damgr.go:162-169 | the object computes the value model's operation |
| LiveDA.LiveDA.GetInput | op-alt-da/damgr.go:193-259 | the object computes the value model's operation, fixed by DAAnswers.ReadExactly |
| LiveDA.LiveDA.Reset | op-alt-da/damgr.go:172-189 | the object computes the value model's operation |
| LiveDA.LiveDA.Finalize | op-alt-da/damgr.go:141-157 | the object computes the value model's operation |
| Duplex.StepInv | op-preimage/oracle.go:22-74 | any fragment moved in either direction leaves every byte of the exchange accounted for |
| Duplex.RunInv | op-preimage/oracle.go:22-74 | after any interleaving the answers so far are the replies to the requests so far, in order |
| Duplex.StepWorks | op-preimage/oracle.go:22-74 | every step reduces the bytes left to move, so every session ends |
| Duplex.NeverStuck | op-preimage/oracle.go:22-74 | a session can stop only when every request has been answered |
| Duplex.CompleteRun | op-preimage/oracle.go:22-74 | a session that cannot go on has answered every request and left both streams empty |
| Preimage.DecodeEncoded | op-preimage/hints.go:21-27 | a length written big-endian in k bytes reads back modulo 256^k |
| Preimage.EncodeDecoded | op-preimage/oracle.go:28-31 | the k bytes read are the encoding of the length they announce |
| Preimage.PrefixedSelfDelimiting | op-preimage/hints.go:48-60 | a reader stops exactly at the end of a message iff its length fits into the prefix |
| Preimage.PreimagesSoFar | op-preimage/oracle.go:22-74 | at any point of any session, the i-th pre-image received is the value of the i-th key |
| Preimage.PreimagesDelivered | op-preimage/oracle.go:22-74 | a finished session has served every key once, in order, and emptied the streams |
| Preimage.HintingValid | op-preimage/hints.go:21-34 | hints can be read back iff each is shorter than 2^32 bytes |
| Preimage.HintsDelivered | op-preimage/hints.go:21-71 | a finished session has handed over every hint in order, with exactly one acknowledgement each |
| FilePolling.EnoughRoundsComplete | op-preimage/filepoller.go:26-64 | enough rounds that move at least a byte complete a transfer, however it is cut up |
| FilePolling.FluentPoll | op-preimage/filepoller.go:26-64 | rounds of which none goes wrong but by a missed deadline complete a transfer without an error, at one round that moves a byte for each byte at most |
| FilePolling.FirstReturnDecides | op-preimage/filepoller.go:26-64 | the first round that makes a call return decides its outcome, its count and what is left |
| FilePolling.ReturnsExactly | op-preimage/filepoller.go:26-64 | for every script, a call returns iff a round cannot set its deadline, misses it with the context done, or completes the transfer without missing it |
| FilePolling.DoneContextReturns | op-preimage/filepoller.go:10-13 | with a context done from the start, a call returns iff a round cannot set its deadline, misses it, or completes the transfer |
| FilePolling.ClosedFileNeverReturns | op-preimage/filepoller.go:26-44 | with too few bytes left and errors other than a missed deadline only, it never returns |
| FilePolling.Poller.Read | op-preimage/filepoller.go:26-44 | the buffer holds exactly the bytes taken off the stream, for every script of short reads, deadlines and cancellation |
| FilePolling.Poller.Write | op-preimage/filepoller.go:46-64 | exactly the counted prefix of the data is written, for every script |
| FilePolling.ReadFull | op-preimage/oracle.go:32-34 | n bytes are read iff the poll moved n of them, and nothing is asked of the file for n = 0 |
| FilePolling.Get | op-preimage/oracle.go:22-38 | success means the whole key was sent and exactly one length-prefixed value was taken; it succeeds iff the key is written and both parts of the value are read |
| FilePolling.NextPreimageRequest | op-preimage/oracle.go:51-74 | nothing is written unless a whole 32-byte key was read and its pre-image exists; it is served iff that and the writes succeed, and then exactly the prefixed value is written |
| FilePolling.Hint | op-preimage/hints.go:21-34 | success means the whole hint was sent and exactly one byte was taken, and it comes iff the write and the read report no error |
| FilePolling.NextHint | op-preimage/hints.go:48-71 | a hint is handed over iff it is read whole; it is acknowledged with one zero byte, also when its handler fails |
| PreimageSessions.ServeKeys | op-preimage/oracle.go:51-74 | the server writes the prefixed values of the keys it reads, in order, and at most part of the next one; it serves all keys if nothing but missed deadlines goes wrong and enough rounds move a byte |
| PreimageSessions.GetAll | op-preimage/oracle.go:22-38 | the i-th Get takes exactly the i-th value off the stream, and under such rounds all of them return |
| PreimageSessions.PreimageSession | op-preimage/oracle.go:22-74 | client and server composed: the i-th Get that returns gives the value of the i-th key, after a full session both streams are empty, and a session of such rounds is full |
| PreimageSessions.RouteHints | op-preimage/hints.go:48-71 | the reader hands the hints over in order and writes one byte for each, whether or not the handler accepts it; all of them under such rounds |
| PreimageSessions.WriteHints | op-preimage/hints.go:21-34 | the writer takes one byte per hint, and under such rounds every hint returns |
| PreimageSessions.HintSession | op-preimage/hints.go:21-71 | writer and reader composed: hints arrive in order with one acknowledgement each, also for refused ones, and both streams end empty; under such rounds all hints are handed over and acknowledged |
| PreimageMoves.RoundsAreMoves | op-preimage/filepoller.go:26-64 | every call of Read or Write is, round by round, a run of its side's moves in the interleaved exchange, ending where one move of all the bytes would |
| PreimageMoves.EndpointsCountDown | op-preimage/oracle.go:22-74 | the framing of both protocols asks for what is left, whatever the fragments, as RoundsAreMoves needs |
| PreimageMoves.GetMoves | op-preimage/oracle.go:22-38 | every transfer of Get, of key, length and value, is a run of the client's moves, and a complete one leaves the exchange where the next starts or with the answer received |
| PreimageMoves.NextPreimageRequestMoves | op-preimage/oracle.go:51-74 | every transfer of NextPreimageRequest is a run of the server's moves; a complete key leaves the prefixed value of that key to be written |
| PreimageMoves.HintMoves | op-preimage/hints.go:21-34 | every transfer of Hint is a run of the client's moves, up to the acknowledgement received |
| PreimageMoves.NextHintMoves | op-preimage/hints.go:48-71 | every transfer of NextHint is a run of the server's moves; a complete hint leaves one byte to be written |
| Txpool.StepInv | op-batcher/batcher/driver.go:569-587 | each read or write of either loop keeps the invariant and moves the state along the cycle only, and the blocked type is that of the last rejected transaction |
| Txpool.OneCancellation | op-batcher/batcher/driver.go:903-913 | at most one cancellation is outstanding, exactly while CancelPending; it has no frames and is sent as the type opposite to the rejected transaction's |
| Txpool.ReceiptsOnce | op-batcher/batcher/driver.go:569-587 | every transaction sent is awaited until its receipt is recorded, once, whatever is read and written in between |
| Txpool.RecordsExactly | op-batcher/batcher/driver.go:1045-1053 | an error is recorded as a failed transaction, inclusion as a confirmation in its block, and neither changes nothing |
| Txpool.CancelReceiptIgnored | op-batcher/batcher/driver.go:1045-1069 | the receipt of a cancellation leaves the channel manager as it was |
| Txpool.EmptyIdUnknown | op-batcher/batcher/driver.go:903-913 | no channel ever has a transaction with the cancellation's empty id |
| Txpool.WorldStepInv | op-batcher/batcher/driver.go:569-587 | loops and channel manager together keep both invariants, and cancellation receipts change no channel state |
| Txpool.RunSafe | op-batcher/batcher/driver.go:404-418 | in every interleaving only Good, Blocked, CancelPending, Good occurs and nothing panics |
| Txpool.StartSafe | op-batcher/batcher/driver.go:173-173 | the same for every run from the start |
| Txpool.TxpoolGuard.SetTxPoolState | op-batcher/batcher/driver.go:451-456 | the locked write is the automaton's SetBlocked or SetGood step and moves one place along the cycle |
| Txpool.TxpoolGuard.TakeReceipt | op-batcher/batcher/driver.go:574-582 | a turn of the receipts loop is the automaton's tests and writes in order: rejected while Good blocks with that transaction's type, a cancellation's receipt while CancelPending makes it Good |
| Txpool.TxpoolGuard.CheckTxpool | op-batcher/batcher/driver.go:1093-1108 | the critical section is the automaton's check step; publishing goes on iff the state is Good, and while Blocked a cancellation of the blocked type is asked for and the state is CancelPending |
| DAChoice.ExactIffFits | op-batcher/batcher/channel_config_provider.go:77-141 | the integer comparison is the exact comparison of costs per byte, ties to blobs, for every quote iff the calldata gas fits 63 bits |
| DAChoice.Misjudged | op-batcher/batcher/channel_config_provider.go:77-141 | for every frame size whose gas does not fit, a quote that is decided wrongly |
| DAChoice.MonotoneInBlobFee | op-batcher/batcher/channel_config_provider.go:77-141 | at nonnegative prices a higher blob base fee never moves the choice towards blobs iff the wrapped blob gas and frame size agree in sign or calldata can never be chosen |
| DAChoice.PectraFavoursBlobs | op-batcher/batcher/channel_config_provider.go:112-130 | the floor price of EIP-7623 never moves the choice towards calldata iff it does not lower the wrapped cost of calldata or, where the wrapped blob fee has no weight, the base fee decides for calldata before or for blobs after |
| DAChoice.ChoiceFollowsLastInformed | op-batcher/batcher/channel_config_provider.go:56-69 | over every run of calls, a failed query returns the previous answer, and throttling returns blobs |
| DAChoice.DynamicEthChannelConfig.Provide | op-batcher/batcher/channel_config_provider.go:56-110 | throttled calls answer the blob configuration, failed queries the previous answer, and within the bounds any other call the configuration that is cheaper per byte |

## Left out

- Metrics, logs, RPC, HTTP, signing, command lines and contract bindings: plumbing without state of interest.
- Compression, RLP, span batches and blob encoding: what the channel out answers to AddBlock, Close and OutputFrame is an input of the model.
- The computation of sizes (input, output, pending and unsafe bytes), the oldest L1 origin and the oldest L2 block of a channel: nothing else reads them.
- Hashes of L1 blocks: L1 blocks are known by number only. Channel ids are numbers, and a transaction id is the sequence of its frame ids instead of their string form.
- A channel whose output went past 65535 frames, and confirmations that time out a channel already pruned, are excluded from runs by their legality conditions; the second is described by `ConfirmPanicsExactly` and `InvalidateUnqueuedEmpty`.
- uint64 overflow of windows and block numbers in the Alt-DA manager, and of the safe head's number plus one.
- ABI decoding of challenge events and resolver calldata, and fetching them: a block's decoded events are an input, or absent when fetching fails.
- syncAndPrune is composed on values only; its parts are also proved on the mutable object.
- An L1 reorg that is not noticed before the next block is read: between two full resets the model reads one chain.
- What a panicking call leaves behind in the mutable objects, except where a contract says that nothing changed.
- The blob-candidate error path that neither sends nor fails a drawn transaction, the throttling loops and the PID controller.
- Closing of files, and errors of the streams other than those the polling loops see: the four endpoints are modelled over the polling file.
- ClosedWhenDue: is about lives of one channel; the manager looks at the L1 head only when it packs blocks, and may be told not to.
- ChoiceFollowsLastInformed: the answer of a price query is an input, its timeout is one way to fail.
- ExactIffFits: assumes at least one blob and a blob gas that fits a signed 64-bit integer, that is fewer than 2^46 blobs in a transaction.
- ReadSafeExactly: is about states in which nothing in the queue keeps the commitment from being finalized; elsewhere a careless read alone need not do harm, and `CarelessRead` reads the commitment once more. After a reply other than Found the pipeline asks for the same commitment again, which the later steps here need not do; those of `CarelessRead` do.
- SignalSafeExactly: likewise; `CarelessFinality` covers the other states.
- Waiting for a pending commitment: the pipeline asks for it again before anything else, while possible runs may go on to other reads or the next block, so they include more than the pipeline does; the runs of the counterexamples wait.
- Which commitments an L1 block holds: any commitment may be read at any block.
- HeadJustifiedExactly: is about commitments read so far; commitments of L1 blocks up to the head that are read later are not covered.
- PublishingDrains: leaves out DA switches, forced publishing, failures and errors of the channel out, and asks that a new channel takes its first block; that only finitely many frames are output is not part of it.
- HintsDelivered: has the same reply for every hint; that refused hints are acknowledged too is `HintSession`.
- RunSafe: a transaction handed to the transaction manager may stay in flight forever, so returning to Good is not claimed; while CancelPending the cancellation is always somewhere on its way.
- The gas oracle's token ratio, cannon and the development tooling: only easy members, or code outside the logic above.
