# Verification model of yaoi

yaoi is a batch-first io_uring runtime for TCP. This project models three parts of it and proves what they
keep over whole runs:

* **One stream** (`EntHugeTlb`): a connection with a 2 MiB cyclic receive page and a 2 MiB send page, each of 256
  buffers of 8192 bytes, and the eight cursor fields that describe them.
* **The drive loops**: `run_blueprints`, which passes control between a protocol layer and the app, and the
  callback and send loop of the listener.
* **The two pools**: `TcpListener` and `TcpClientPool`, which handle batches of completions.

## How it is built

| file | contents |
|---|---|
| Common.dfy | constants, `Option`, `Outcome`, `Reply`, the panics and errors |
| Receive.dfy, Transmit.dfy | the cursor decisions as functions, each half's memory and history, its invariants |
| Recycling.dfy | when `try_free_buffers` is exact, when it panics, and which ids it names |
| Engine.dfy | every interleaving of kernel, layer and driver steps; the receive ring as a FIFO |
| Channel.dfy | the send side as an unbounded channel |
| Runs.dfy, Witnesses.dfy | theorems over whole runs; runs that reach the failures and show that the bounds are tight |
| Paces.dfy | the exact paces of consumption at which recycling is safe and exact |
| Losses.dfy | what becomes of the output when layers write anywhere and commit at any time |
| Silence.dfy | exactly when a connection can never send again |
| EntHugeTlb.dfy | the stream object: arrays, fields updated in place, loops |
| Drive.dfy, Blueprints.dfy | `run_blueprints`: its decisions, measure and panics, and what follows what; the loop over a real stream object and `IntermedBuf` |
| Streams.dfy | a stream as a value owned by a pool slot, callbacks, the listener's callback and send loop |
| ListenerModel.dfy, TcpListener.dfy | the listener's transitions and invariants; the object |
| ListenerRuns.dfy | a connection's life at the listener, from ring completions |
| Histories.dfy | what a pooled stream's cursor stands for: a run of one stream |
| Pooled.dfy | every stream of a served listener as the end of such a run, idle and delivered |
| ClientModel.dfy, TcpClientPool.dfy | the client pool's transitions and invariants; the object |
| PooledClient.dfy | the client pool's streams as ends of such runs, and the output they can strand |

Each operation of an object is a method proved equal to a function of its old state; its contract adds what the
operation promises, and what holds over runs is proved of those functions. History that the program does not store (all bytes the kernel wrote, what was consumed,
committed, submitted, returned to the ring, and in flight) lives in `Rx` and `Tx`.

## What is assumed of the world

* The kernel fills receive buffers in cyclic order (examples/blueprint-tls-http/README.md:19-23), only with credit:
  256 buffers at first and one more for every `dropping_bid`. It reports only bytes it wrote. It may be arbitrarily
  far ahead of the completions the program has seen.
* It acknowledges at most the bytes of a submission and sends one final notification. A completion with a negative
  result retires nothing (src/tcp_listener.rs:276-278) and no bytes of that submission are acknowledged afterwards. If
  it carries the more flag its record is kept (src/tcp_listener.rs:296-299) and the notification that follows gives the
  buffer back; if not, none follows.
* Layers consume input and never add to it, commit only bytes they wrote behind the pending output, and do not
  commit between a refused submission and its repetition. What happens otherwise is stated by `LensRoundTripIff`,
  `StaleCommitUnderflowsIff`, `AnsweredBytes` and `KeptThroughoutIff`; `left_set_lens` and writes through the borrowed
  slice are modelled for all arguments, and `run_blueprints` also for streams whose last send was refused.
* In the pools every foreign call (accept, submit, allocation, ring registration, receive request) succeeds or fails
  as an arbitrary function of a clock says, and the callback does any sequence of borrows, writes and `left_set_lens`
  calls. Only Pooled.dfy and PooledClient.dfy trust the kernel (`HonestRun`) and the callback (`LayersOk`) with what is
  said above; of the callback they also ask that it has committed everything it wrote when it returns.
  A buffer group that is registered cannot be registered again.
* Arithmetic on `usize` and `u16` is unbounded; a subtraction below zero is the panic of a checked build. The proved
  bounds keep every position below 2^23 and every buffer number below 2^16.

## What the proofs found

* `try_free_buffers` panics in an ordinary run: the panic is unreachable if and only if at most 4095 bytes are
  consumed between two calls (`SafePaceIff`). At 4096 it is reached after 2 MiB (`FourKiBPanics`).
* A reader that consumes more than 255 buffers between two calls can lose a whole lap of buffers without any sign
  (`OneMoreByteLosesCount`). Every return is exact if and only if at most 255 buffers are (`ExactPaceIff`);
  `FreeCatchesUpIff` is the exact condition for one call.
* On a lap that ends through line 223 the id given back is 256 where 255 is due; `ShortLapNames256` is such a run. The
  ids of a run are all due if and only if no free of it meets that state or a reader past the page's end
  (`IdsRightRunIff`); up to 4095 bytes per call, `IdsExact` gives every id.
* `left_set_lens` panics for a layer that leaves input where it is: once the unread bytes run past the end of the page,
  a layer may leave no more than the first of the two pieces it was lent (`MayLeaveIff`). Setting both lengths to what
  they were panics too (`PartialRecordPanics`). For some layer within its contract `run_blueprints` ends in that panic
  if and only if the unread bytes wrap (`WrapPanicIff`); to be safe from then on a layer has to consume past the end of
  the page (`StillWrapsIff`).
* After a refused submission a shorter commit puts `pos_out_end` before `pos_out_start` and the next `left_lens`
  underflows (`StaleCommitUnderflowsIff`, `StaleCommitReachable`). Any other commit of a new length drops as many bytes
  as `idx_out_cur` is behind: the last pending ones, then the first of the output (`AnsweredBytes`). No later step makes
  up for their number (`LostExactly`, `StaleIsForEver`). Even a write without a commit spoils pending bytes
  (`WriteAloneSpoils`). A run keeps every byte of its output in order all the way if and only if no commit is stale and
  no write spoils a pending byte (`KeptThroughoutIff`).
* After a refused submission a layer whose output is exactly as long as `idx_out_cur` is behind makes `run_blueprints`
  take its output for flushed, and a layer and an app within their contracts can then keep it going for ever
  (`FillingSpins`). In every other case the first call ends the run.
* A failed send never gives back its bytes, and a short acknowledgement leaks bytes; a failed send gives back its buffer
  only if its completion announced a notification (`FailedNotification`). A connection can never send again if and only
  if the bytes stuck in this way exceed 8192 or six sends failed without a notification to come (`SilentIff`). Two
  failed sends of a full buffer are enough (`TwoLostSilence`); six failed sends of a byte are if and only if none is
  notified (`SixFailures`).
* The listener leaves no stream with output it could send, so once the kernel owes nothing all committed output is sent
  unless the stream is silenced (`Pooled.ServedStreamsAreExact`). The client pool does not send when a send completes:
  output committed behind a closed gate stays after the last acknowledgement has opened it (`ByteStranded`,
  `SentIdleIff`).
* `IntermedBuf` is a queue only for layers that consume everything or nothing (`PrefixIsQueueIff`).
* Without `set_hugetlb` no successful accept or connect is ever handled with Ok (`AcceptedOwes`, `ConnectedSettles`), and every
  pooled listener slot is in state `Accepted`, since the want flags are read before the callback can set them.

## Model

| member | source | states |
|---|---|---|
| Engine.RingIsFifo | src/tcp_stream/ent_streaming_hugetlb.rs:290-398 | after any run, however often the ring has revolved, the borrowed view is legal and its bytes are exactly those an unbounded FIFO fed with the same events still holds |
| Engine.RunSimulates | src/tcp_stream/ent_streaming_hugetlb.rs:213-398 | the whole receive side, unread and unreported bytes, refines that FIFO over any run |
| Engine.QueueStepSimulates | src/tcp_stream/ent_streaming_hugetlb.rs:213-398 | every single step commutes with the FIFO |
| Engine.RunKeeps | src/tcp_stream/ent_streaming_hugetlb.rs:119-398 | the stream's invariant holds after every run and no run ever underflows a counter or length |
| Engine.StepKeeps | src/tcp_stream/ent_streaming_hugetlb.rs:119-398 | the same for one step of any kind |
| Receive.DmaKeepsUnread | examples/blueprint-tls-http/README.md:19-23 | a kernel write within its credit changes no unconsumed byte of the page |
| Receive.RecvPanicsIffEmpty | src/tcp_stream/ent_streaming_hugetlb.rs:281-322 | reporting a receive panics exactly when a buffer is named and no byte arrived, with the revolution message exactly for buffer 0 in the page's last buffer |
| Receive.RecvKeeps | src/tcp_stream/ent_streaming_hugetlb.rs:281-298 | a reported receive extends the unread bytes by exactly the next bytes of the wire |
| Receive.BorrowShowsUnread | src/tcp_stream/ent_streaming_hugetlb.rs:366-392 | the unchecked two-slice borrow is inside the page, disjoint, of the reported length, and shows the unread bytes in order |
| Receive.ConsumeKeeps | src/tcp_stream/ent_streaming_hugetlb.rs:344-356 | shrinking the in-length consumes from the front |
| Receive.FreeKeeps | src/tcp_stream/ent_streaming_hugetlb.rs:213-252 | freeing never returns more buffers than were consumed and loses no unread byte |
| Recycling.FreeCatchesUpIff | src/tcp_stream/ent_streaming_hugetlb.rs:213-252 | one call hands back every consumed buffer if and only if no revolution is outstanding, or one is and the reader is in buffer 0 with 255 or 256 returned |
| Recycling.ExactFree | src/tcp_stream/ent_streaming_hugetlb.rs:213-252 | a call that returns after at most 255 buffers were consumed leaves the count exact |
| Recycling.CloseFree | src/tcp_stream/ent_streaming_hugetlb.rs:219-240 | in the states reached at 4095 bytes per call, freeing does not panic and idx_in_reused stays within 256 |
| Recycling.IdsNamed | src/tcp_stream/ent_streaming_hugetlb.rs:221-248 | exactly the ids one call hands back: 256 when the reader is in buffer 0 with 255 returned, else each buffer's number within the lap |
| Recycling.IdsRightIff | src/tcp_stream/ent_streaming_hugetlb.rs:221-248 | a call names only ids that are due if and only if it is not in that state and the reader has not run past the page's end |
| Recycling.IdsFree | src/tcp_stream/ent_streaming_hugetlb.rs:221-248 | in the states reached at 4095 bytes per call, the ids are the cycle 0 to 255 but for 256 on exactly those calls |
| Runs.InputIsBounded | src/tcp_stream/ent_streaming_hugetlb.rs:213-252 | at most 2 MiB unread, returns never exceed whole consumed buffers, kernel credit is bounded by them |
| Paces.ExactPaceIff | src/tcp_stream/ent_streaming_hugetlb.rs:219-250 | from a new stream, every return of try_free_buffers has handed back exactly the wholly consumed buffers in every run at a pace if and only if the pace is at most 255 buffers between frees |
| Paces.SafePaceIff | src/tcp_stream/ent_streaming_hugetlb.rs:219-240 | from a new stream, the recycling panic is unreachable at a pace if and only if the pace is at most 4095 bytes between frees |
| Runs.EveryFreeCatchesUp | src/tcp_stream/ent_streaming_hugetlb.rs:219-250 | from any exact state, over any run consuming at most 255 buffers between frees and any number of revolutions, a return leaves idx_in_reused equal to pos_in_start / 8192 and total returns equal to consumed / 8192 |
| Runs.NeverRecycledAhead | src/tcp_stream/ent_streaming_hugetlb.rs:219-240 | from any close state, over any run consuming at most 4095 bytes between frees, the recycling panic is unreachable and idx_in_reused stays within 256 |
| Runs.IdsRightRunIff | src/tcp_stream/ent_streaming_hugetlb.rs:221-248 | at any pace, the ids of a whole run are all due if and only if none of its frees misnames |
| Runs.IdsExact | src/tcp_stream/ent_streaming_hugetlb.rs:221-248 | at up to 4095 bytes per free, every id of a whole run: the cycle, with 256 for 255 on exactly the laps whose wrapping free finds 255 |
| Runs.FreshIsClose | src/tcp_stream/ent_streaming_hugetlb.rs:38-48 | a new stream meets the preconditions of these run theorems |
| Witnesses.FourKiBPanics | src/tcp_stream/ent_streaming_hugetlb.rs:219-240 | 514 rounds of 4096 bytes from a new stream end in the recycling panic |
| Witnesses.OneMoreByteLosesCount | src/tcp_stream/ent_streaming_hugetlb.rs:219-250 | one byte over 255 buffers: 257 consumed, 1 returned, and the cursor looks right |
| Witnesses.ShortLapNames256 | src/tcp_stream/ent_streaming_hugetlb.rs:221-226 | a run of 255 buffers, then one buffer and a byte, hands back 256 as its 256th id |
| ChannelModel.SendsLikeAChannel | src/tcp_stream/ent_streaming_hugetlb.rs:119-271 | after any run, through throttling, refusals, wraps and acknowledgements, the bytes sent, the bytes pending and both in-flight counters are those of an unbounded channel |
| ChannelModel.ChannelStepSimulates | src/tcp_stream/ent_streaming_hugetlb.rs:119-271 | every step commutes with the channel |
| Runs.OutputIsExact | src/tcp_stream/ent_streaming_hugetlb.rs:125-210 | from a new stream: committed output equals submitted plus pending, in order; pending_bufs is at most 261 and pending_sends at most 2105344, and both equal what is in flight |
| Transmit.SendShape | src/tcp_stream/ent_streaming_hugetlb.rs:125-210 | the arithmetic of one call: how many chunks leave, where the cursor stops after a refusal, and that otherwise it ends empty on a buffer boundary |
| Transmit.GatherCut | src/tcp_stream/ent_streaming_hugetlb.rs:152-187 | the submitted chunks, end to end, are the first bytes of the pending output |
| Transmit.ApplySplitsPending | src/tcp_stream/ent_streaming_hugetlb.rs:149-210 | a call moves a prefix of the pending bytes to the submitted ones and keeps the rest |
| Transmit.FullSend | src/tcp_stream/ent_streaming_hugetlb.rs:149-210 | an unthrottled, unrefused call sends everything and re-establishes start = end = idx * 8192 |
| Transmit.RefusedSendStops | src/tcp_stream/ent_streaming_hugetlb.rs:177-206 | a call refused after k chunks leaves exactly the bytes from k * 8192 on |
| Transmit.RefusedSendResumes | src/tcp_stream/ent_streaming_hugetlb.rs:149-210 | the next unthrottled, unrefused call without a commit in between sends exactly that remainder |
| Transmit.SendKeeps | src/tcp_stream/ent_streaming_hugetlb.rs:119-211 | sending keeps the stream, the accounts and the lap geometry, and commits nothing |
| Transmit.CommitAppends | src/tcp_stream/ent_streaming_hugetlb.rs:360-364 | writing behind the pending output and raising the out-length commits exactly the bytes written |
| Transmit.SetLenKeeps | src/tcp_stream/ent_streaming_hugetlb.rs:360-364 | changing the out-length of a synced stream keeps its invariant and gives that length |
| Transmit.LapDisjoint | src/tcp_stream/ent_streaming_hugetlb.rs:149-208 | chunks of one lap have buffer ids up to 255, do not overlap, and stay clear of the slice lent to the layers |
| Transmit.AckKeeps | src/tcp_stream/ent_streaming_hugetlb.rs:254-274 | retiring an acknowledgement never underflows and keeps both counters equal to what is in flight |
| Transmit.QuietGate | src/tcp_stream/ent_streaming_hugetlb.rs:130-144 | once every notification that will come has come, the counters are exactly what is stuck, and the gate is closed if and only if that is more than 8192 bytes or at least 6 buffers |
| Transmit.FailedNotification | src/tcp_listener.rs:275-300 | the notification of a send that failed with the more flag gives back its buffer and none of its bytes; without the flag no notification is possible |
| Transmit.SilencedSendsNothing | src/tcp_stream/ent_streaming_hugetlb.rs:130-144 | with that much stuck, whatever else is in flight, a call submits nothing |
| Silence.SilentIff | src/tcp_listener.rs:275-300 | no run whatever submits another byte if and only if the bytes stuck in failed and short-acknowledged sends exceed 8192 or at least six sends failed without a notification to come; otherwise some run of acknowledgements, notifications and a commit submits one |
| Silence.SilencedForever | src/tcp_listener.rs:275-300 | with that much stuck, no run at any pace submits another byte |
| Silence.AckAll | src/tcp_stream/ent_streaming_hugetlb.rs:254-274 | the kernel can always acknowledge all that has not failed and notify all that is not lost, and that leaves exactly what is stuck |
| Silence.TwoLostSilence | src/tcp_listener.rs:275-300 | a run of one commit, one call and two failed sends after which the connection is silent for ever |
| Silence.SixFailures | src/tcp_listener.rs:275-300 | six one-byte sends that all fail: the run ends silent for ever if no notification is to come, and with six bytes, no buffer and an open gate if all are notified |
| Engine.LensRoundTripIff | src/tcp_stream/ent_streaming_hugetlb.rs:339-365 | left_lens gives back what left_set_lens set if and only if idx_out_cur is not stale or the out-length was unchanged |
| Runs.LensRoundTrip | src/tcp_stream/ent_streaming_hugetlb.rs:194-208 | after any run without a refused submission, whatever lengths left_set_lens accepts are the lengths left_lens then reports |
| Runs.StaysSynced | src/tcp_stream/ent_streaming_hugetlb.rs:194-208 | pos_out_start equals idx_out_cur * 8192 throughout such a run |
| Engine.StaleCommitUnderflowsIff | src/tcp_stream/ent_streaming_hugetlb.rs:339-365 | exactly when a stale commit makes the next left_lens underflow |
| Engine.StaleCommitReachable | src/tcp_stream/ent_streaming_hugetlb.rs:177-189 | one refused submission reaches such a state |
| Transmit.CommitPreservesIff | src/tcp_stream/ent_streaming_hugetlb.rs:360-397 | writing and committing behind the pending output preserves it, and appends what was written, if and only if idx_out_cur is not stale |
| Losses.LostExactly | src/tcp_stream/ent_streaming_hugetlb.rs:119-397 | over any run of writes, commits, sends and acknowledgements, trusted or not, the number of committed bytes that are neither submitted nor pending grows by exactly pos_out_start - idx_out_cur * 8192 summed over the stale commits of a new length |
| Losses.StaleIsForEver | src/tcp_stream/ent_streaming_hugetlb.rs:339-365 | after such a commit no later move of the run brings the output back |
| Losses.AnsweredBytes | src/tcp_stream/ent_streaming_hugetlb.rs:339-397 | byte by byte, what is pending after a layer writes its output behind the pending length and raises the length by it, for every distance idx_out_cur is behind |
| Losses.KeptThroughoutIff | src/tcp_stream/ent_streaming_hugetlb.rs:119-397 | every state of a run has committed bytes equal to submitted followed by pending ones, if and only if no commit of the run is stale with a new length and no write changes a pending byte |
| Losses.MovedKeepsIff | src/tcp_stream/ent_streaming_hugetlb.rs:119-397 | the same for one move of any kind |
| Losses.WriteAloneSpoils | src/tcp_stream/ent_streaming_hugetlb.rs:177-189 | one refused submission, then a write where layers write: output is spoiled without any commit |
| Transmit.WriteElsewhereIff | src/tcp_stream/ent_streaming_hugetlb.rs:394-397 | a write at any offset keeps the stream if and only if it leaves the pending and uncommitted bytes as they were |
| Engine.StepPanicsIff | src/tcp_stream/ent_streaming_hugetlb.rs:213-398 | the exact input on which each step of trusted parties panics; the second guard of left_set_lens never fails |
| Engine.SetLensReplies | src/tcp_stream/ent_streaming_hugetlb.rs:344-365 | left_set_lens for every cursor and all lengths: exactly which of its checks fails, and otherwise which ends move |
| Engine.MayLeaveIff | src/tcp_stream/ent_streaming_hugetlb.rs:344-392 | after a borrow, left_set_lens accepts an in-length that does not grow if and only if it is at most the first of two pieces, or there is one piece |
| Witnesses.PartialRecordPanics | src/tcp_stream/ent_streaming_hugetlb.rs:344-349 | a run in which a layer leaves a record that runs one byte past the page's end and panics there |
| HugeTlb.EntHugeTlb.FromConnected | src/tcp_stream/ent_streaming_hugetlb.rs:526-563 | a stream is made if and only if its fixed descriptor exists and is below 65535 and the ring can be registered, the error names which of the three failed, and the stream is new and valid |
| HugeTlb.EntHugeTlb.KernelWrite | examples/blueprint-tls-http/README.md:19-23 | the kernel's cyclic write into the real page |
| HugeTlb.EntHugeTlb.WriteOut | src/tcp_stream/ent_streaming_hugetlb.rs:394-397 | a layer's write at any offset of the borrowed output slice, stale or not: it panics exactly past the page's end, changes exactly its bytes, and keeps the stream valid exactly when it appends or leaves pending and written bytes as they were |
| HugeTlb.EntHugeTlb.CbRecvMulti | src/tcp_stream/ent_streaming_hugetlb.rs:275-325 | the field updates are the receive step, and the panic condition is exact |
| HugeTlb.EntHugeTlb.TryFreeBuffers | src/tcp_stream/ent_streaming_hugetlb.rs:213-252 | the loop hands back exactly the ids of the free step |
| HugeTlb.EntHugeTlb.SendAllOut | src/tcp_stream/ent_streaming_hugetlb.rs:119-211 | gates and chunk loop give the send step's state, submissions and result |
| HugeTlb.EntHugeTlb.SubmitChunks | src/tcp_stream/ent_streaming_hugetlb.rs:149-210 | the chunk loop, with its early return at buffer 255, equals the closed form: that return drops nothing |
| HugeTlb.EntHugeTlb.SentZc | src/tcp_stream/ent_streaming_hugetlb.rs:254-274 | the field updates are the acknowledgement step |
| HugeTlb.EntHugeTlb.LeftLens | src/tcp_stream/ent_streaming_hugetlb.rs:339-343 | the lengths are those of the unread and the pending bytes; it underflows exactly when the end lies before the start, which a valid stream never shows |
| HugeTlb.EntHugeTlb.LeftSetLens | src/tcp_stream/ent_streaming_hugetlb.rs:344-365 | the cursor for all arguments, both guards; the receive half stays right and the committed bytes are those in the borrowed slice, stale or not; a valid stream stays valid for trusted lengths |
| HugeTlb.EntHugeTlb.LeftBufsMut | src/tcp_stream/ent_streaming_hugetlb.rs:366-398 | revolving keeps the unread bytes and the returned ranges of the real page hold them |
| DriveModel.DriveBounded | src/tcp_stream/ent_streaming_hugetlb.rs:607-685 | every sequence of loop states is at most Rank + 1 long and stays on levels 0 and 1 |
| DriveModel.LayerDescends | src/tcp_stream/ent_streaming_hugetlb.rs:609-631 | a layer call that does not end the loop lowers the measure |
| DriveModel.AppDescends | src/tcp_stream/ent_streaming_hugetlb.rs:633-659 | an app call that does not end the loop lowers the measure |
| DriveModel.ContractNeeded | src/tcp_stream/ent_streaming_hugetlb.rs:607-685 | a layer that keeps right output pending, or feeds without consuming, can spin the loop for ever |
| DriveModel.WrapPanicIff | src/tcp_stream/ent_streaming_hugetlb.rs:344-349 | some layer and app within their contracts end a run in the in-length panic if and only if the unread input runs past the page's end once borrowed |
| DriveModel.FlatInputIsSafe | src/tcp_stream/ent_streaming_hugetlb.rs:344-349 | otherwise no layer and app within their contracts do, however often they are called |
| DriveModel.StillWrapsIff | src/tcp_stream/ent_streaming_hugetlb.rs:344-373 | an accepted call leaves the input wrapped if and only if it leaves at least the second piece |
| DriveModel.FillingSpins | src/tcp_stream/ent_streaming_hugetlb.rs:607-685 | from a stream whose last send was refused, a layer that fills the gap and an app that keeps writing, both within their contracts, bring the loop back to the same state for ever |
| Blueprints.RunBlueprints | src/tcp_stream/ent_streaming_hugetlb.rs:586-687 | for all layers and apps within their contracts, and for streams in or out of step, it terminates after at most 3 * 8193 * in-length + 3 calls; every call is the orbit's move on the buffers it meets; an app call follows exactly a layer that is ready with nothing left to send, a layer call exactly a reply, a partly taken input, or a layer that made progress and is neither ready nor blocked, and it returns exactly when neither is due; no reply is left behind unless the layer has output to be sent first; panics are exact. Excluded: a first call that fills the gap of a refused send (FillingSpins) |
| Blueprints.RunLayers | src/tcp_stream/ent_streaming_hugetlb.rs:607-685 | the same for the loop over real buffers, whose contents between the calls are those the moves make; with WrapPanicIff's function for its outcome |
| Blueprints.Turn | src/tcp_stream/ent_streaming_hugetlb.rs:608-684 | one pass: the move of the level that is due, its effect on the buffers' contents, and the next level exactly as something is due; the todo!() arms are never taken |
| Blueprints.LayerArm | src/tcp_stream/ent_streaming_hugetlb.rs:609-631 | for any stream between runs, the level 0 arm goes on to the app exactly after a ready layer with no left output, to the layer again exactly after progress of one neither ready nor blocked, and else returns; it leaves the output that AnsweredBytes describes, or panics exactly where output, input left or feed does not fit or the length underflows |
| Blueprints.AppArm | src/tcp_stream/ent_streaming_hugetlb.rs:633-659 | the level 1 arm goes on to the layer exactly when the app left a reply or took a part of its input, with contents a prefix of the input and the output with the reply behind it; it panics exactly where the reply does not fit |
| DriveModel.RepliesAreFlushed | src/tcp_stream/ent_streaming_hugetlb.rs:607-685 | in every run that returns, the buffer to the layer is empty or the layer has output of its own to be sent first |
| Blueprints.IntermedBuf.AddRightIn | src/tcp_stream/ent_streaming_hugetlb.rs:519-524 | appends to the input, or panics exactly when it does not fit |
| Blueprints.IntermedBuf.AddRightOut | src/tcp_stream/ent_streaming_hugetlb.rs:513-518 | appends to the output, or panics exactly when it does not fit |
| Blueprints.IntermedBuf.AllSentRightOut | src/tcp_stream/ent_streaming_hugetlb.rs:509-512 | empties and zeroes the output |
| Blueprints.IntermedBuf.LeftSetLens | src/tcp_stream/ent_streaming_hugetlb.rs:465-468 | keeps a prefix of either side |
| Blueprints.PrefixIsQueueIff | src/tcp_stream/ent_streaming_hugetlb.rs:465-474 | keeping a prefix is queue behaviour for every content if and only if everything or nothing was consumed |
| Streams.SendLoopBounded | src/tcp_listener.rs:369-381 | at most max(0, 6 - pending_bufs) + 1 callbacks, so at most 7, whatever the callback does; an Ok end leaves nothing that could be sent |
| Streams.LoopReplies | src/tcp_listener.rs:369-381 | the loop goes on exactly as long as the callback returns, there is something to send, the gate is open, the ring takes all of it and the submit succeeds; it ends Ok exactly when the callback returns and nothing is left to send, and otherwise with the panic or error of what failed |
| Streams.SendLoopTight | src/tcp_listener.rs:369-381 | a callback that always commits one byte is called 7 - k times with k submissions in flight |
| Streams.OpsKeep | src/tcp_stream/ent_streaming_hugetlb.rs:344-398 | no sequence of borrows and length settings changes what is in flight or unaligns the send cursor |
| Streams.SendOutKeeps | src/tcp_stream.rs:107-116 | a send that reports chunks passed the gate and raised pending_bufs; any Ok leaves the stream idle |
| Streams.SendOutReply | src/tcp_stream.rs:107-116 | for every stream and ring: an error without huge pages or when the ring refuses, an underflow when the end lies before the start, and otherwise the number of new submissions, which is how much pending_bufs rises, and 0 exactly when nothing can be sent |
| Listener.DriveSends | src/tcp_listener.rs:398-415 | the loop as written, with the same bound, makes exactly those rounds, leaves the stream of the last and replies as LoopReplies says |
| Listener.TcpListener.AcceptReplenish | src/tcp_listener.rs:150-174 | Ok if and only if every request and the submit succeed, and then exactly replCc accepts are outstanding more |
| Listener.TcpListener.Collect | src/tcp_listener.rs:255-351 | a batch from at most N completions never overflows its queue, and holds in order one item for each completion that is not a failed send, with its descriptor, results and flags |
| Listener.TcpListener.Check | src/tcp_listener.rs:248-517 | an Ok check drops exactly the slots of which a completion says the peer is gone, of those it does not accept anew; an error of the ring is returned with the pool untouched; the pool invariant is kept whatever the outcome |
| Listener.TcpListener.HandleSentZc | src/tcp_listener.rs:358-386 | whatever the outcome the pool and its rings stay sound and accepts balanced; after Ok the stream has nothing left it could send, its consumed buffers are returned, and no other slot changed; it is Ok exactly when that much is in flight, the loop ends Ok and returning buffers does not panic |
| Listener.TcpListener.HandleRecv | src/tcp_listener.rs:387-434 | the same for a receive; after Ok the slot is gone if and only if the peer is, with its ring unless unregistering failed; its reply is exact for every input and world |
| Listener.TcpListener.HandleAccepted | src/tcp_listener.rs:435-511 | a completed accept is Ok exactly when everything it needs succeeds, and otherwise ends in the error of the first thing that does not; ring and slot are there exactly when everything up to them succeeded; it costs its request unless the ring takes a new one |
| Listener.TcpListener.OpenStream | src/tcp_listener.rs:450-511 | the part from the buffers on: Ok exactly when huge pages are set, two can be had, the descriptor is below 65535 and its ring free and registered, and the greeting goes well |
| Listener.TcpListener.Welcome | src/tcp_listener.rs:490-511 | the pool is as before, or holds an idle stream of the new descriptor in its slot and no other change; after Ok it does; rings and accepts are untouched |
| ListenerModel.CollectedFits | src/tcp_listener.rs:261-351 | a batch holds at most one item per completion and never Nothing |
| ListenerModel.CollectedIs | src/tcp_listener.rs:261-351 | collecting fails exactly for a failed receive or a foreign completion; else the batch has one item per completion that is not a failed send, in order, with the same descriptor, byte count, buffer id, result and more flag, and shutdown exactly without the more flag |
| ListenerModel.SlotsGone | src/tcp_listener.rs:248-517 | which slots an Ok check drops, in terms of the ring's completions |
| ListenerModel.DrainGone | src/tcp_listener.rs:353-514 | the same for a batch |
| ListenerModel.SentZcQuiets | src/tcp_listener.rs:358-386 | an Ok send completion leaves its stream with nothing it could send and all consumed buffers of the lap returned, and touches no other slot |
| ListenerModel.RecvQuiets | src/tcp_listener.rs:387-434 | so does an Ok receive completion, which drops the slot exactly on shutdown |
| ListenerModel.AcceptedLeaves | src/tcp_listener.rs:435-511 | what each way of ending an accept leaves of requests, rings and pool |
| ListenerModel.AcceptedReplies | src/tcp_listener.rs:435-511 | the reply of an accept, its ring and its slot, for every world and descriptor |
| ListenerModel.SentZcReplies | src/tcp_listener.rs:358-386 | the reply to a send completion, for every world |
| ListenerModel.RecvMultiReplies | src/tcp_listener.rs:387-434 | the reply to a receive completion, for every world |
| ListenerModel.GreetStores | src/tcp_listener.rs:490-511 | greeting changes nothing, or one slot, which then holds an idle stream of its own descriptor |
| ListenerModel.SentZcOwes | src/tcp_listener.rs:358-386 | the send completion arm keeps pool, rings and accept balance |
| ListenerModel.RecvOwes | src/tcp_listener.rs:387-434 | the receive completion arm does, also when it removes the slot |
| ListenerModel.AcceptedOwes | src/tcp_listener.rs:435-511 | an accept does, including into an occupied slot; without huge pages it never ends Ok |
| ListenerModel.GreetOwes | src/tcp_listener.rs:490-511 | greeting a connection pools it under its own descriptor or pools nothing, and registers no further ring |
| ListenerModel.DrainOwes | src/tcp_listener.rs:353-514 | a whole batch keeps the pool invariant with any outcome, and rings and accepts in balance after Ok; unreachable!() is never reached |
| ListenerModel.ServeOwes | src/tcp_listener.rs:248-517 | the same over any run of checks |
| ListenerModel.ListenerBalance | src/tcp_listener.rs:150-174 | from a replenished listener: buffer groups of pooled streams are pairwise distinct, registered rings are exactly the pooled streams', outstanding accepts are the initial ones less the failed ones |
| ListenerRuns.ConnectionServed | src/tcp_listener.rs:248-517 | five checks that all end Ok: an accept pools the stream with its ring, a request is answered, its reply acknowledged until nothing is in flight, and the end of the peer leaves nothing of it |
| Pooled.ServedStreamsAreExact | src/tcp_listener.rs:248-517 | from a replenished listener, over any run of Ok checks with an honest kernel and layers within their contract: every pooled stream's cursor is the end of a legal run of a new stream, so its input is a FIFO's, its output is neither lost nor reordered and its counters are exactly what is in flight; it has nothing it could send, and all its output is sent once the kernel owes nothing and it is not silenced; no check underflows |
| Pooled.DrainIdle | src/tcp_listener.rs:353-514 | no batch handled without error leaves a pooled stream with anything it could send |
| Histories.IdleDelivers | src/tcp_stream/ent_streaming_hugetlb.rs:130-144 | an idle stream to which the kernel owes nothing has sent all that was committed, unless it is silenced |
| Pooled.DrainBacked | src/tcp_listener.rs:353-514 | the same for one batch from any such pool, with accepts into it and slots dropped from it |
| Pooled.ServeIsDrain | src/tcp_listener.rs:248-517 | a run of checks does what one batch of all its completions would do |
| Pooled.DrainAppend | src/tcp_listener.rs:353-514 | a batch is handled in its order, and stops at the first completion that is not Ok |
| Pooled.LoopIsRun | src/tcp_listener.rs:369-381 | the callback and send loop is a run of the stream's own state machine and panics exactly when and as that does |
| Pooled.SentIsRun | src/tcp_listener.rs:358-386 | so is a whole send completion |
| Pooled.ReceivedIsRun | src/tcp_listener.rs:387-416 | so is a whole receive completion, with the kernel's write before it |
| Pooled.GreetIsRun | src/tcp_listener.rs:490-511 | so is the greeting of a connection, from a new stream |
| ClientPool.TcpClientPool.ConnectWithCb | src/tcp_pool/tcp_client_pool.rs:132-190 | it succeeds exactly when every push does; then slots 0 to pool_count - 1 are connecting with their requests and counted, and from an empty pool these are all |
| ClientPool.TcpClientPool.Collect | src/tcp_pool/tcp_client_pool.rs:199-278 | the batch fits, its counter is its number of connect completions, and it holds in order one item for each completion that is neither a socket nor a failed send, with its descriptor and results |
| ClientPool.TcpClientPool.Check | src/tcp_pool/tcp_client_pool.rs:192-376 | equals the transition function; an error of the ring panics with the pool untouched; an Ok check returns exactly the drop in state_connecting and keeps the counters true |
| ClientPool.TcpClientPool.DrainBundle | src/tcp_pool/tcp_client_pool.rs:280-374 | draining stops at the first completion that is not Ok and equals the recursive transition of DrainSettles |
| ClientPool.TcpClientPool.HandleRecv | src/tcp_pool/tcp_client_pool.rs:285-309 | no counter and no other slot changes; after Ok the stream is idle with its buffers returned; where the counters were right they still are; its reply is exact for every input and world |
| ClientPool.TcpClientPool.HandleSentZc | src/tcp_pool/tcp_client_pool.rs:310-323 | Ok if and only if the slot holds a huge-page stream with that much in flight; then exactly the bytes, and on the last notification the buffer, leave flight; nothing else changes |
| ClientPool.TcpClientPool.HandleConnected | src/tcp_pool/tcp_client_pool.rs:324-371 | a refused connection is always Ok, counted as an error and its code stored; one that succeeded is Ok exactly when everything it needs succeeds, is counted once its ring is there and stored once its send went well; otherwise the error is that of the first thing that failed; counters that were right still are after Ok |
| ClientPool.TcpClientPool.Welcome | src/tcp_pool/tcp_client_pool.rs:354-371 | no counter moves; the pool is as before or holds an idle stream of the same descriptor in that one slot; after Ok it does, and the stream has huge pages |
| ClientModel.CollectedFits | src/tcp_pool/tcp_client_pool.rs:207-276 | batch size and counter for any completions |
| ClientModel.CollectedIs | src/tcp_pool/tcp_client_pool.rs:207-276 | collecting fails exactly for a failed receive, one without a buffer, or a foreign completion; else the batch has one item per completion that is neither a socket nor a failed send, in order, with the same descriptor, byte count, buffer id, result and more flag |
| ClientModel.RecvQuiets | src/tcp_pool/tcp_client_pool.rs:285-309 | a receive completion moves no counter and no other slot; an Ok one leaves its stream idle with its buffers returned |
| ClientModel.SentRetires | src/tcp_pool/tcp_client_pool.rs:310-323 | a send completion is Ok exactly when that much is in flight, and retires exactly that |
| ClientModel.ConnectedMoves | src/tcp_pool/tcp_client_pool.rs:324-372 | which counter moves, and what is stored, for every way a connect completion can end |
| ClientModel.ConnectedReplies | src/tcp_pool/tcp_client_pool.rs:324-371 | the reply to a connect completion, its counters and its slot, for every result and world |
| ClientModel.RefusalsAreCounted | src/tcp_pool/tcp_client_pool.rs:332-338 | a batch of refused connections to distinct slots always ends Ok, with each of them moved from connecting to error and its code in its slot |
| ClientModel.RecvMultiReplies | src/tcp_pool/tcp_client_pool.rs:285-309 | the reply to a receive completion, for every world |
| ClientModel.GreetStores | src/tcp_pool/tcp_client_pool.rs:354-371 | greeting moves no counter and stores nothing, or an idle stream in its own slot |
| ClientModel.CountersSum | src/tcp_pool/tcp_client_pool.rs:74-78 | the three counters add up to the pool size |
| ClientModel.LeaveConnecting | src/tcp_pool/tcp_client_pool.rs:332-348 | a slot that leaves Connecting is counted where it went |
| ClientModel.ConnectedSettles | src/tcp_pool/tcp_client_pool.rs:324-372 | a connect completion keeps the counters equal to the slot sets; without huge pages a success is an error |
| ClientModel.GreetSettles | src/tcp_pool/tcp_client_pool.rs:347-371 | a connection that was counted and greeted leaves counters and slot sets equal |
| ClientModel.RecvSettles | src/tcp_pool/tcp_client_pool.rs:285-309 | a receive completion changes no counter and keeps every slot's stream its own |
| ClientModel.SentSettles | src/tcp_pool/tcp_client_pool.rs:310-323 | neither does a send completion |
| ClientModel.HandleSettles | src/tcp_pool/tcp_client_pool.rs:280-374 | so does every expected completion, and unreachable!() is never reached |
| ClientModel.DrainSettles | src/tcp_pool/tcp_client_pool.rs:280-374 | so does a batch, which lowers state_connecting by its connects |
| ClientModel.ServeCounts | src/tcp_pool/tcp_client_pool.rs:192-376 | over any run of Ok checks the counters agree with the slots, sum to the pool size, and the returned values sum to the slots that left Connecting |
| PooledClient.ServedStreamsAreExact | src/tcp_pool/tcp_client_pool.rs:192-376 | from a pool whose slots all connect, over any run of Ok checks with an honest kernel and layers within their contract: every connected slot's stream is the end of a legal run of a new stream and as exact as a listener's, the counters are true, and no check underflows |
| PooledClient.OpenedOpening | src/tcp_pool/tcp_client_pool.rs:132-190 | the pool that the first connect leaves is one this holds from |
| PooledClient.DrainBacked | src/tcp_pool/tcp_client_pool.rs:280-374 | the same for one batch from any such pool |
| PooledClient.ServeIsDrain | src/tcp_pool/tcp_client_pool.rs:192-376 | a run of checks does what one batch of all its completions would do |
| PooledClient.DrainAppend | src/tcp_pool/tcp_client_pool.rs:280-374 | a batch is handled in its order, and stops at the first completion that is not Ok |
| PooledClient.AnswerIsRun | src/tcp_pool/tcp_client_pool.rs:285-309 | the callback, send and free after a receive are a run of the stream's own state machine, with the same outcome |
| PooledClient.RecvIsRun | src/tcp_pool/tcp_client_pool.rs:285-309 | so is a whole receive completion, with the kernel's write before it |
| PooledClient.GreetIsRun | src/tcp_pool/tcp_client_pool.rs:354-371 | so is the greeting of a connection, from a new stream |
| PooledClient.SentIdleIff | src/tcp_pool/tcp_client_pool.rs:310-323 | an Ok send completion leaves its stream with nothing it could send if and only if nothing was pending or the gate is still closed |
| PooledClient.ByteStranded | src/tcp_pool/tcp_client_pool.rs:285-323 | a run of one connect, one receive and two full acknowledgements that leaves a committed byte behind an open gate with nothing in flight |

## Left out

- LapDisjoint: says nothing across laps; the program does not check that a zero-copy send is finished before its buffer is written again.
- ServeCounts: one connect completion per slot and one connect call, which the program relies on without checking.
- The client pool forgets the record of a send after its first completion; whether the ring library still delivers the notification is not part of this model, which lets the kernel report it.
- RunBlueprints: excludes a stream whose last send was refused together with a first call that fills the gap, because the loop then need not end (FillingSpins).
- TcpListener and TcpClientPool hold streams as values with their cursors; the page contents are modelled only in EntHugeTlb.
- Pages larger than 2 MiB: the source hard-codes 2097152 next to the page's capacity.
- The meaning of `dropping_bid(256)` inside the ring library, which is not part of this model.
- Layers and apps beyond their contracts; the TLS and HTTP orbits are external.
- Want, shutdown and ready flags that no modelled decision reads.
- Socket set-up, file registration, page allocation and the ring itself, which are foreign calls that succeed or fail.
- Regular file descriptors and multi-shot accept, which the source leaves unfinished.
- Strategy and blueprint builders, capacity tables, error formatting and printing, which only build or show values.
