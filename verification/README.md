# A verified model of ringnet

ringnet is a C++ networking library over `io_uring`: user threads push requests, one loop thread
prepares them by batch, submits them, and dispatches completions to subscribers, multi-shot reads
using buffers shared with the kernel through a ring. This project models that protocol in Dafny and
proves what it keeps over every run.

`dafny verify dfyconfig.toml` checks the whole project.

## Structure

- `Bits`, `CircularQueue`: masks, and rings with wrapping counters, for the buffer ring and the
  completion queue.
- `BufferRing`, `Requests`, `Batches`, `EventHandler`, `Completions`: the data and the classes.
- `Protocol`: the transition system of pushing threads, loop thread and kernel. `Lifecycle` has two
  invariants: every step keeps the first (`Soundness`, `Runs`), and every step keeps the second, which
  says more about requests, but the one by which the completion of a cancel frees a block
  (`LifecycleSteps`). `RequestTheorems`, `Cancels`, `Sending`, `DroppedRequests`, `Submission`,
  `BufferTheorems` and `StreamTheorems` state what follows. `FailingRuns` has concrete runs in which
  the code fails what it is for, `AcceptRun` one in which an accept serves two clients.
- `SubmissionQueue`, `EventLoop`: the classes, which hold machine addresses and raw memory only. Each
  method is proved to take the protocol state, carried as ghost state, to its next; that state is
  always one that a run reaches, so what holds of every run holds of the classes.
- `Threads`: locks, batches and callbacks under every interleaving.
- `Custody`, `Descriptors`, `Sockets`, `Connection`, `Connector`, `Acceptor`: who owns a descriptor,
  and the status machines of Connector and Acceptor.

## Assumptions

The kernel may take entries at any time and act on them in any order. It posts one completion per
single-shot entry and any number per multi-shot entry, and never beyond the capacity of the completion
queue. For a multi-shot read it takes the buffer at the ring head, writes at most the buffer size, and
puts the id above bit 16 of the flags, with the buffer flag set; without a buffer it reports no data.
The pool returns neither null nor the address of a live block. Obtaining and preparing a submission
entry leaves its user data as the slot held it, null at first, as in the liburing of
`external/archives`; each entry takes the next slot in turn. Each critical section and each pool
operation is atomic. A subscriber outlives the completions of its requests, as
`include/ringnet/eventLoop.hpp:39` asks. The system hands out descriptors that are not open. The
Connector and the Acceptor have single-threaded callers, and a callback does not destroy the object
that calls it.

## Where the code differs from its intent

The model follows the code.

- The flag tests of `include/ringnet/uring/bufferRing.hpp:64` and `:76` use `|` and always hold, so a
  multi-shot read that reports end of stream without a buffer returns buffer 0
  (`EndOfStreamReturnsABuffer`). `ConservedIffBalanced` and `BalanceCases` give the exact condition
  under which buffers are conserved; a null subscriber, which a moved-from Connection has, loses them
  the other way.
- For the same reason the bytes of a stream can be overwritten before they are read
  (`RefilledStreamIsCorrupted`). `FillKeepsIntactIff` tells exactly when, and `StreamPreserved` holds of
  the runs in which only buffers that were lent are given back.
- `cancel` sets no user data (`src/ringnet/uring/submissionQueue.cpp:16-24`), so its entry has the
  pointer of the last request that used its slot (`CancelsInherit`), and its completion is taken for that
  request's. `RunKeepsIff` gives the exact condition under which what is known of requests holds: no
  cancel's completion has freed a block. At the first one, `FaultIff` tells exactly when memory is read
  through a dangling or a null pointer, `CancelTells` whose subscriber is told, `CancelFreesLive` which
  live block is freed. `CancelFaults`, `CancelDangles`, `CancelFreesWaiting` and `CancelReturnsABuffer`
  are runs in which it happens. Without cancels there is none of this (`WithoutCancels`).
- `preparePendingRequests` ignores a full queue and counts the request all the same, and `add` always
  reports success (`DroppedIsForgotten`, `DroppedIsKept`, `DroppedIffStuck`, `SecondWriteIsDropped`).
- The move assignment of FileDescriptor exchanges, so a moved-from Connection may own, and will cancel
  and close, the target's former socket (`AssignedFromIsSilentIff`).
- A Connector whose connect is refused stays pending for good, and so does one whose callback returns
  before `asyncConnect` has set the status (`StuckIff`, `StuckForGood`, `RefusedRun`,
  `OvertakenRun`).
- Descriptor 0 passes for invalid (`ZeroLeaks`, `ZeroLeaksInARun`); a client accepted while no callback is set leaks
  (`UnheardClientsLeak`, `UnheardRun`).
- A callback that registers a callback on its own handler blocks the loop for good
  (`DeadlockIffSelfRegistration`, `SelfRegistrationRun`).

## Model

| member | source | states |
|---|---|---|
| BufferTheorems.ConservedIffBalanced | src/ringnet/eventLoop.cpp:68-81 | Main result. In every run, each buffer id stays in exactly one place (offered in the ring, carried by an unprocessed completion, or with the running handler) if and only if the loop gave back the buffer of each completion that carried one and of no other |
| BufferTheorems.BalanceCases | include/ringnet/uring/bufferRing.hpp:62-83 | Which completions break the balance, at their dispatch in any run: exactly those with a buffer and a null subscriber or an error (lent for good), and those without a buffer, read as a multi-shot read with a subscriber, that are no error and whose upper flag bits name a buffer (returned without having been lent) |
| BufferTheorems.UnlentCases | include/ringnet/uring/bufferRing.hpp:62-83 | Until a cancel has freed a block: a buffer that was not lent is returned only for a multi-shot read with result 0, and for a cancel that has the pointer of a multi-shot read |
| FailingRuns.EndOfStreamReturnsABuffer | include/ringnet/uring/bufferRing.hpp:76-81 | A run in which the code loses conservation, for any number and size of buffers: the peer closes, the completion carries no buffer, and buffer 0 is returned all the same because the flag test uses `\|` |
| BufferTheorems.ConservedCounts | include/ringnet/uring/bufferRing.hpp:43-48 | In a conserving state the buffers offered and the buffers lent add up to the number registered |
| BufferTheorems.GiveBackConservesIff | src/ringnet/eventLoop.cpp:80-80 | One return of a buffer keeps conservation exactly when the completion is balanced |
| BufferTheorems.RunKeepsRing | include/ringnet/uring/bufferRing.hpp:28-50 | In every state of every run the ring has its slots, its 16-bit counters stay in range and what it offers are valid ids |
| BufferTheorems.RunKeepsWires | include/ringnet/uring/bufferRing.hpp:64-71 | In every run a completion with a buffer names an existing one, and its result is the number of bytes written, at most the buffer size |
| StreamTheorems.StreamPreserved | src/ringnet/eventLoop.cpp:68-81 | Main result. In every run in which each dispatched completion for which a buffer is given back carried one, cancels included: for every multi-shot read, the payloads delivered, concatenated in dispatch order, are the bytes the kernel wrote for the completions dispatched, hence a prefix of all it wrote |
| StreamTheorems.OutcomesExact | src/ringnet/eventLoop.cpp:27-95 | Under the same condition, until a cancel has freed a block, the outcome of every request, bytes included, is the one computed from the request as pushed and the bytes as written, without looking at memory |
| StreamTheorems.HandlerBytesAreStable | src/ringnet/eventLoop.cpp:78-80 | Under the same condition, while a handler runs, the buffer it is reading still holds the bytes it was given |
| StreamTheorems.ExactUnlessOverwritten | src/ringnet/eventLoop.cpp:68-81 | In every run in which the kernel fills no buffer that still holds bytes for a completion whose buffer is not back, every outcome of a multi-shot read is exact and the bytes not dispatched yet are intact |
| StreamTheorems.EarnedIsFree | src/ringnet/eventLoop.cpp:80-80 | Giving back only what was lent keeps every id in at most one place, so no buffer in use is filled; leaking buffers does no harm here |
| StreamTheorems.ReturnAppendsInARun | include/ringnet/uring/bufferRing.hpp:74-83 | Under the same condition, each return of a buffer in a run appends its id to those the ring offers, which are fewer than its slots: no slot that the kernel has not consumed is overwritten |
| StreamTheorems.FillKeepsIntactIff | include/ringnet/uring/bufferRing.hpp:74-83 | When received bytes can be lost, exactly: whatever the kernel writes next leaves them intact if and only if its next buffer is not attached to a completion that carries bytes and whose buffer is not back |
| FailingRuns.RefilledStreamIsCorrupted | include/ringnet/uring/bufferRing.hpp:76-81 | A concrete run in which the stream is not preserved: after the end-of-stream return the kernel has the only buffer twice, writes 1 then 2, and the subscriber is given 2 first |
| BufferRings.GetIgnoresTheFlag | include/ringnet/uring/bufferRing.hpp:64-71 | As written the flag plays no part in the selection: only the id does |
| BufferRings.GrantedExponent | include/ringnet/uring/bufferRing.hpp:37-41 | A power of two that fits the largest ring has an exponent of at most 15, one less than the width of the tail |
| BufferRings.FreshWindow | include/ringnet/uring/bufferRing.hpp:43-48 | A ring whose slots hold their own index offers every id once, in order |
| BufferRings.FillSlots | include/ringnet/uring/bufferRing.hpp:43-47 | The masked slot of buffer `i` is slot `i`: `n` distinct slots get `n` distinct ids |
| BufferRings.BufferRing.SetupBuffers | include/ringnet/uring/bufferRing.hpp:26-51 | Succeeds exactly for a granted power of two; then every id is offered once, in order, and the kernel has this ring and no other, the former one having been freed. On a length that is no power of two nothing changes |
| BufferRings.BufferRing.Free | include/ringnet/uring/bufferRing.hpp:56-60 | The kernel is left without a ring |
| BufferRings.BufferRing.View | include/ringnet/uring/bufferRing.hpp:62-72 | The buffer named by the upper flag bits, if there is one |
| BufferRings.BufferRing.Release | include/ringnet/uring/bufferRing.hpp:74-83 | The id is appended to what the ring offers, provided that the ring is not full |
| CircularQueue.PushBackAppends | include/ringnet/uring/bufferRing.hpp:79-81 | Writing the masked tail slot appends to the window exactly when no unconsumed slot is overwritten by something else |
| CircularQueue.PopFrontDrops | include/ringnet/uring/submissionQueue.hpp:101-102 | Advancing the head drops entries from the front, across the wrap of the counter |
| CircularQueue.RingRefinesQueue | include/ringnet/uring/bufferRing.hpp:28-50 | Main result. Over any number of operations a ring of `2^k` slots with `w`-bit wrapping counters, `k < w`, behaves as an unbounded first-in first-out queue |
| Bits.PowerOfTwoTestIsExact | include/ringnet/uring/bufferRing.hpp:90-93 | The bit test, on a wrapping `size_t`, accepts exactly 0 and the powers of two |
| Bits.MaskIsRemainder | include/ringnet/uring/bufferRing.hpp:45-46 | Masking by `2^k - 1` is the remainder by `2^k`, for every index |
| Bits.WrapKeepsSlot | include/ringnet/uring/bufferRing.hpp:79-81 | Wrapping a counter does not change the slot it designates |
| Bits.SlotsDiffer | include/ringnet/uring/bufferRing.hpp:45-46 | Indices less than a turn apart have different slots |
| Bits.OrOneIsNeverZero | include/ringnet/uring/bufferRing.hpp:76-76 | The flag test with `\|` holds of every flag value |
| Lifecycle.WaitingIsLive | src/ringnet/uring/submissionQueue.cpp:58-68 | With one stage per allocation, a request waiting for its batch has not been freed |
| Lifecycle.AnsweredIsLive | include/ringnet/uring/submissionQueue.hpp:95-100 | With one stage per allocation, a request with any completion of its own not released yet has not been freed |
| LifecycleSteps.StepKeepsIff | include/ringnet/uring/submissionQueue.hpp:24-29 | Main result. What is known of requests (one stage per allocation, exact heap, genuine entries, owed outcomes, no fault but a cancel's) is kept by a step of pushing threads, loop or kernel if and only if the step is not the release of a cancel's completion that frees a block |
| RequestTheorems.RunKeepsIff | src/ringnet/uring/submissionQueue.cpp:144-165 | Main result. In every run it holds up to a state if and only if no cancel's completion has freed a block before |
| Soundness.StepIsSound | include/ringnet/uring/submissionQueue.hpp:24-29 | Every step, in whatever run, keeps pointers typed, blocks as pushed at their address, multi-shot requests in place, and queue and histories aligned |
| LifecycleSteps.PrepareReadsThePush | src/ringnet/uring/submissionQueue.cpp:58-131 | The pointer visited by a batch still designates the block pushed, in the vector of its own type |
| LifecycleSteps.ReapReadsThePush | src/ringnet/eventLoop.cpp:33-38 | The user data of a request's completion being handled still designates the block pushed |
| LifecycleSteps.DispatchIsExpected | src/ringnet/eventLoop.cpp:27-95 | What the dispatch closure decides from memory is what is owed to the request as pushed |
| LifecycleSteps.ReleaseFreesThePush | src/ringnet/uring/submissionQueue.cpp:144-165 | Releasing a request's completion frees the pushed block, as its own type, if single-shot, and nothing otherwise |
| RequestTheorems.FaultIff | src/ringnet/uring/submissionQueue.cpp:144-148 | Main result. Until a cancel has freed a block: with addresses reused freely, a step accesses memory through a null, dangling or mistyped pointer if and only if it dispatches a completion whose user data is an address at which every request pushed has been freed, or releases one without user data; both are a cancel's |
| Cancels.CancelsInherit | src/ringnet/uring/submissionQueue.cpp:16-24 | Main result. In every run, the entry of a cancel has the user data of the last request whose entry used the same slot on an earlier lap of the queue, and none if and only if there is no such request |
| Cancels.CompletionsInherit | include/ringnet/uring/submissionQueue.hpp:95-100 | In every run, so has the completion of a cancel |
| Cancels.CancelTells | src/ringnet/eventLoop.cpp:27-95 | Until a cancel has freed a block: the dispatch of a cancel's completion tells the subscriber of the request at the inherited address, the one that had the slot if not freed and otherwise one allocated there since, what would be owed to it for the result of the cancel; that request is still in progress |
| Cancels.CancelFreesLive | src/ringnet/uring/submissionQueue.cpp:150-164 | The first block that a cancel's completion frees is that of the same request, which is still waiting, queued, in the kernel, answered but not released, or dropped |
| Cancels.WithoutCancels | src/ringnet/uring/submissionQueue.cpp:16-24 | Main result. A run without cancels never accesses memory through a null, dangling or mistyped pointer, and all that is known of requests holds throughout |
| FailingRuns.CancelFaults | src/ringnet/uring/submissionQueue.cpp:144-148 | A run that faults, for any configuration: a cancel in an unused slot is queued, taken, completed, dispatched and released through null |
| FailingRuns.CancelDangles | src/ringnet/eventLoop.cpp:33-34 | A run that faults, with one slot: a cancel follows a write that has completed and has been freed, and the loop reads the header of the write |
| FailingRuns.CancelFreesWaiting | src/ringnet/uring/submissionQueue.cpp:144-165 | A run that frees a live block, with one slot: a new write has the address of the first; on the completion of a cancel its subscriber is told that it is done and its block is freed, while it waits for its batch, which then reads freed memory |
| FailingRuns.CancelReturnsABuffer | src/ringnet/eventLoop.cpp:68-81 | A run that loses conservation, with one slot: a cancel follows a multi-shot read, whose subscriber is told of 0 bytes, and buffer 0 is returned without having been lent |
| RequestTheorems.TypesAgree | include/ringnet/uring/requests.hpp:25-80 | Main result. Until a cancel has freed a block: the operation performed for a request, the type its completion is read as, the type it is deallocated as and the type it was allocated as are one |
| RequestTheorems.CompletionsAreLive | include/ringnet/uring/submissionQueue.hpp:95-100 | Until a cancel has freed a block: no completion of a request that is still to be visited refers to freed or reused memory |
| RequestTheorems.LiveIffInOneStage | src/ringnet/uring/submissionQueue.cpp:58-165 | Main result. Until a cancel has freed a block: each allocation is in one stage once, it is live exactly if it is waiting, queued, in the kernel, answered but not released, or dropped, and every address in the heap holds such an allocation made there |
| RequestTheorems.SingleShotOnce | src/ringnet/uring/submissionQueue.cpp:156-163 | Until a cancel has freed a block: a read, a write or a connect has at most one completion of its own, however often its address is reused |
| RequestTheorems.FreedIffReleased | src/ringnet/uring/submissionQueue.cpp:150-164 | Until a cancel has freed a block: a request is freed exactly when it is a read, a write or a connect and its own completion has been released, so after its handler, and once |
| RequestTheorems.MultiShotStays | src/ringnet/uring/submissionQueue.cpp:151-154 | Main result. In every run an accept and a multi-shot read are never freed, and their blocks stay as pushed, at their address |
| RequestTheorems.ReleasesByType | src/ringnet/uring/submissionQueue.cpp:150-164 | In every run a release frees the one block at the user data if it is that of a read, a write or a connect, and nothing if it is that of an accept or a multi-shot read |
| RequestTheorems.ArmedByType | src/ringnet/uring/submissionQueue.cpp:70-131 | In every run exactly accepts and multi-shot reads stay with the kernel after an answer |
| AcceptRun.AcceptsTwice | src/ringnet/uring/submissionQueue.cpp:151-154 | A run in which one accept request is answered twice: both clients are notified and the block stays |
| RequestTheorems.OutcomesMatchPushes | src/ringnet/eventLoop.cpp:27-95 | Main result. Until a cancel has freed a block: each visited completion has exactly one outcome, in completion order; that of a request is, bytes aside, the one owed to it as pushed: one notification of the subscriber given to `add`, of the kind of the operation, or one error |
| RequestTheorems.NotifiesTheSubscriber | src/ringnet/eventLoop.cpp:27-95 | Until a cancel has freed a block: the dispatch of a request's own completion notifies the subscriber given to `add` of the error, if the result is negative, and otherwise of the event of the request's type, with the result, descriptor and bytes the source puts in it; a null subscriber, or flags that name no buffer, are errors of the loop |
| RequestTheorems.EntriesMatchPushes | src/ringnet/uring/submissionQueue.cpp:70-131 | Until a cancel has freed a block: every request's entry in the queue or the kernel asks for the operation, descriptor and length of the request pushed, multi-shot reads alone with the buffer group; a cancel's user data, if any, is a pointer once pushed |
| RequestTheorems.PushRecordsTheCall | include/ringnet/uring/submissionQueue.hpp:39-47 | A push records what the caller asked for, at the pool's address, with the tag of its type, its subscriber, and the buffer group for multi-shot reads alone, and puts one request more in waiting |
| Sending.CancelSentIffRoom | src/ringnet/uring/submissionQueue.cpp:16-24 | In every run a cancel is queued last, with the user data left in its slot, exactly when there is room, and is lost otherwise |
| Sending.EveryPushSentOnce | src/ringnet/uring/submissionQueue.cpp:58-142 | In every run each push is waiting, or was sent once, or was dropped once: exactly one of these |
| Sending.SubmissionOrderIsKept | src/ringnet/uring/submissionQueue.cpp:133-142 | In every run entries reach the kernel in the order they were queued |
| DroppedRequests.AnswersWereReceived | include/ringnet/uring/submissionQueue.hpp:24-29 | In every run each completion answers an entry the kernel took |
| DroppedRequests.DroppedIsForgotten | src/ringnet/uring/submissionQueue.cpp:62-65 | In every run a request dropped because the queue stayed full is never sent and never answered, although `add` reported success |
| DroppedRequests.DroppedIsKept | src/ringnet/uring/submissionQueue.cpp:62-65 | Until a cancel has freed a block: nor is its block ever freed |
| FailingRuns.SecondWriteIsDropped | src/ringnet/uring/submissionQueue.cpp:62-65 | A concrete run that drops a request: two writes, room for one, and an in-batch submit that frees nothing |
| Requests.Tag | include/ringnet/uring/requests.hpp:17-23 | The tags are distinct: the arm selected by the tag of a type is that type's |
| Submission.BatchIsSentOrDropped | src/ringnet/uring/submissionQueue.cpp:58-68 | Main result. As long as what is known of requests holds, for any batch and any answers of the kernel, the requests with room are sent in visiting order, the others dropped, and together they are the batch |
| Submission.OversizedBatchIsSentWhole | src/ringnet/uring/submissionQueue.cpp:133-142 | Likewise, a batch of any length goes out whole and in order if each in-batch submit frees a slot |
| Submission.DroppedIffStuck | src/ringnet/uring/submissionQueue.cpp:133-142 | In every run a request that is still in memory is dropped exactly when the queue is full and the in-batch submit frees nothing; it is read through a dangling pointer exactly when it is not in memory |
| Submission.QueueFits | src/ringnet/uring/submissionQueue.cpp:133-142 | In every state of every run the queue holds at most its capacity |
| Submission.PrepareManyReaches | src/ringnet/uring/submissionQueue.cpp:58-68 | Preparing any number of requests of a batch is taking steps of the protocol, up to one that is read through a dangling pointer, if any |
| SubmissionQueues.RequestPool.Allocate | include/ringnet/uring/requestPool.hpp:12-16 | A new block of the given type at a free address |
| SubmissionQueues.RequestPool.Deallocate | include/ringnet/uring/requestPool.hpp:18-22 | Requires the type the block was allocated as; the block is gone, the others stay |
| SubmissionQueues.PendingRequests.Push | include/ringnet/uring/pendingRequests.hpp:16-20 | Appends to the vector of the request's type |
| SubmissionQueues.PendingRequests.Clear | include/ringnet/uring/pendingRequests.hpp:22-25 | Empties every vector |
| SubmissionQueues.SubmissionQueue.Push | include/ringnet/uring/submissionQueue.hpp:39-47 | With addresses only, takes the protocol state to its next: allocated, written, pending |
| SubmissionQueues.SubmissionQueue.Cancel | src/ringnet/uring/submissionQueue.cpp:16-24 | Takes the protocol state to its next: an entry with the user data left in its slot, or nothing if there is no room |
| SubmissionQueues.SubmissionQueue.Fill | src/ringnet/uring/submissionQueue.cpp:16-24 | The entry in the next slot, at the tail modulo the capacity, has the user data set for it, or else what the slot held since its last use |
| SubmissionQueues.SubmissionQueue.Queue | src/ringnet/uring/submissionQueue.cpp:133-142 | An entry is obtained exactly when there is room, before or after the single submit |
| SubmissionQueues.SubmissionQueue.Prepare | src/ringnet/uring/submissionQueue.cpp:70-131 | Fills the entry described by the memory at the pointer, for the type of its vector; reports whether there was room; faults exactly when there is no block at the pointer |
| SubmissionQueues.SubmissionQueue.PreparePendingRequests | src/ringnet/uring/submissionQueue.cpp:58-68 | Visits the whole batch in order, clears the vectors, and counts every request, also those dropped; it cannot fault as long as what is known of requests holds |
| SubmissionQueues.SubmissionQueue.Release | src/ringnet/uring/submissionQueue.cpp:144-165 | Takes the protocol state to its next: the block now at the user data, also a cancel's, is given back, as the type it was allocated as, if it is that of a read, a write or a connect, and stays if it is that of an accept or a multi-shot read |
| Batches.BatchIsStableRegrouping | include/ringnet/uring/pendingRequests.hpp:16-35 | The visiting order is a permutation of the pushes, grouped by type in declaration order, keeping push order within a type |
| Batches.BatchInParts | include/ringnet/uring/pendingRequests.hpp:27-35 | The visiting order is: accepts, connects, reads, multi-shot reads, writes, those of each type in push order |
| Batches.StableRegroupingIsUnique | include/ringnet/uring/pendingRequests.hpp:27-35 | No other sequence has these properties |
| Completions.CompletionQueue.Post | include/ringnet/uring/submissionQueue.hpp:95-95 | The kernel appends one completion, over the wrap of the 32-bit index, never beyond the capacity |
| Completions.CompletionQueue.VisitAll | include/ringnet/uring/submissionQueue.hpp:91-100 | While the kernel keeps posting, the loop visits a prefix of what is visible, at least all that was there, and ends |
| Completions.CompletionQueue.ForEachCompletion | include/ringnet/uring/submissionQueue.hpp:89-103 | Main result. Each completion is visited once and in order, at most as many as the queue holds; the head advances by exactly that many, and nothing posted meanwhile is lost |
| EventHandlers.InForceIsLast | include/ringnet/eventHandler.hpp:32-37 | The callback in force for a kind is the last one registered for it |
| EventHandlers.NoneInForce | include/ringnet/eventHandler.hpp:23-30 | Without a registration an event reaches nobody |
| EventHandlers.EventHandler.On | include/ringnet/eventHandler.hpp:32-37 | Replaces the callback of one kind and no other |
| EventHandlers.EventHandler.Handle | include/ringnet/eventHandler.hpp:23-30 | Each of the five events reaches the callback last registered for its own kind, and no other |
| EventLoops.DispatchMeans | src/ringnet/eventLoop.cpp:27-95 | In every run the next completion is dispatched from the content of a block as pushed at this address, or is null, or dangles |
| EventLoops.EventLoop.constructor | src/ringnet/eventLoop.cpp:7-13 | Once the kernel grants the ring, the loop starts with all its buffers offered |
| EventLoops.EventLoop.Add | include/ringnet/eventLoop.hpp:83-92 | Tag, subscriber and, for multi-shot reads, buffer group are set before the push |
| EventLoops.EventLoop.Switch | src/ringnet/eventLoop.cpp:27-95 | The tests in order and the arm selected: outcome, and whether the arm ends by returning the buffer |
| EventLoops.EventLoop.Decide | src/ringnet/eventLoop.cpp:27-95 | Reading memory at the user data, it decides what the protocol's dispatch step decides, and nothing exactly when the user data dangles |
| EventLoops.EventLoop.Handle | src/ringnet/eventLoop.cpp:27-95 | One completion takes two steps of the protocol. The callback is called between them, once the outcome is decided and before the buffer goes back: the ring is as it was and the buffer still holds the bytes of the event. It is, on the subscriber of the request, the one in force for errors if the result is negative and for the type of the request otherwise. If the user data dangles, only one step is taken, and nobody is called |
| EventLoops.EventLoop.Visit | include/ringnet/uring/submissionQueue.hpp:95-100 | One iteration of the pass takes three steps of the protocol, dispatch, give back and release, with one outcome more and the callback as above between the first two; it faults exactly when the user data is null, at the third, or dangles, at the first |
| EventLoops.EventLoop.Pass | include/ringnet/uring/submissionQueue.hpp:89-103 | A pass without a fault takes all completions through these three steps, one after the other in order, with one outcome each, and advances the head past them |
| Threads.EveryPushVisitedOnce | include/ringnet/uring/submissionQueue.hpp:39-47 | Main result. Under every interleaving of any number of threads, no push is lost or visited twice, each batch is the stable regrouping of the pushes since the last, and push order within a type holds across batches |
| Threads.DeadlockIffSelfRegistration | include/ringnet/eventHandler.hpp:23-37 | Main result. In a reachable state threads wait for each other in a cycle if and only if a callback is registering on its own handler |
| Threads.SelfRegistrationRun | include/ringnet/eventHandler.hpp:23-37 | A concrete run into the deadlock: a callback registers a callback on the handler that runs it |
| Threads.SomeThreadMoves | src/ringnet/uring/submissionQueue.cpp:60-67 | Otherwise, as long as a thread is in or before a critical section, one of them can proceed |
| Threads.SelfRegistrationIsFinal | include/ringnet/eventHandler.hpp:32-37 | A self-registration blocks the loop for good |
| Threads.StepKeepsLocks | include/ringnet/eventHandler.hpp:23-37 | Every step keeps mutual exclusion and the nesting: only the loop ever holds two locks |
| Custody.ClosedOncePerOpening | src/ringnet/net/sockets.cpp:22-27 | Calls in order close a descriptor once for each opening, except while it is open |
| Custody.AdoptedIsCancelledOnce | src/ringnet/net/connection.cpp:11-15 | Calls in order cancel a descriptor that a Connection took exactly once before it is closed, right before |
| Descriptors.StepKeeps | src/ringnet/net/sockets.cpp:6-27 | Every construction, move, exchange and destruction keeps single ownership and the order of calls |
| Descriptors.OpenIffOwned | src/ringnet/net/sockets.cpp:6-27 | Main result. Over any sequence of operations a positive descriptor is open exactly while one object owns it, and that object is alone |
| Descriptors.ClosedWhenLastOwnerDies | src/ringnet/net/sockets.cpp:22-27 | It is closed once for each time it was opened, less one while it is owned |
| Descriptors.CancelPrecedesClose | src/ringnet/net/connection.cpp:11-15 | Main result. Whatever Connections a socket goes through, it is cancelled exactly once before it is closed, right before |
| Descriptors.DestroyCalls | src/ringnet/net/sockets.cpp:22-27 | In every run a destructor makes no call for a number not above 0; otherwise a descriptor on its own is closed, and the socket of a Connector, an Acceptor or a Connection is cancelled, then closed |
| Descriptors.ZeroLeaks | src/ringnet/net/sockets.cpp:22-27 | Descriptor 0 passes for invalid: it is never cancelled nor closed |
| Descriptors.ZeroLeaksInARun | src/ringnet/net/sockets.cpp:22-27 | A concrete run: an object that received descriptor 0 is destroyed, and 0 stays open |
| Descriptors.MovedFromIsSilent | src/ringnet/net/sockets.cpp:10-13 | An object that another was constructed from is destroyed without a call |
| Descriptors.AssignedFromIsSilentIff | src/ringnet/net/sockets.cpp:15-20 | An object that was assigned from is destroyed without a call exactly when the target owned nothing; otherwise the target's old descriptor goes with it |
| Descriptors.ReplacedIsThreeSteps | include/ringnet/net/connector.hpp:97-97 | `socket = ::socket(...)` opens, exchanges and closes what was there |
| Sockets.FileDescriptor.Move | src/ringnet/net/sockets.cpp:10-13 | The new object has the number, and the source is left invalid |
| Sockets.FileDescriptor.Assign | src/ringnet/net/sockets.cpp:15-20 | The two descriptors are exchanged; assigning an object to itself changes nothing |
| Sockets.FileDescriptor.Destroy | src/ringnet/net/sockets.cpp:22-27 | Closes a positive descriptor, and only that |
| Connections.Connection.constructor | src/ringnet/net/connection.cpp:6-9 | Takes the socket over; the endpoint is its number |
| Connections.Connection.Move | include/ringnet/net/connection.hpp:27-27 | Socket and subscriber go over; the source keeps a stale endpoint |
| Connections.Connection.Assign | include/ringnet/net/connection.hpp:28-28 | Sockets are exchanged, the endpoint copied, and the subscriber of the target destroyed at once |
| Connections.Connection.Destroy | src/ringnet/net/connection.cpp:11-15 | A positive socket is cancelled, then closed; otherwise no call is made |
| Connections.Connection.AsyncRead | src/ringnet/net/connection.cpp:17-26 | Adds a multi-shot read of the socket for the own subscriber, null once moved from; always succeeds |
| Connections.Connection.AsyncWrite | src/ringnet/net/connection.cpp:28-38 | Adds a write of the whole span for the own subscriber; always succeeds |
| Connectors.FollowingKeeps | include/ringnet/net/connector.hpp:60-115 | Every call, completion and destruction keeps the Connector's invariant |
| Connectors.OneConnectInPlace | include/ringnet/net/connector.hpp:84-115 | Main result. In every run at most one connect is outstanding; while it is, the status is pending, or about to be set by the call that added it, and it refers to the current socket and address |
| Connectors.NothingMovesWhileOutstanding | include/ringnet/net/connector.hpp:84-115 | Any calls made meanwhile leave socket, address and request as they are |
| Connectors.CallActsIffNotPending | include/ringnet/net/connector.hpp:87-113 | A call has an effect exactly when the status is not pending; it adds a request, for the descriptor just opened, exactly when also the name resolves and the option is set |
| Connectors.CallLeavesStatus | include/ringnet/net/connector.hpp:84-114 | In every run a call, whatever fails in it, leaves the status and whether a callback runs as they are, and a Connector that is not stuck stays so; one that adds no request leaves the outstanding one; the former socket is closed, not cancelled, exactly when a new one is opened |
| Connectors.FailedCallIsRetried | include/ringnet/net/connector.hpp:90-103 | After a call that failed while the status was not pending, the next one that resolves and is configured adds a request |
| Connectors.StatusChanges | include/ringnet/net/connector.hpp:113-114 | The status starts as disconnected, becomes pending only when a call that added a request returns, and connected only when a callback returns |
| Connectors.DestructionCancels | include/ringnet/net/connector.hpp:60-65 | In every run destruction appends the cancel and then the close of a socket above 0, also while its connect is outstanding, and nothing otherwise |
| Connectors.ConnectedSocketMoves | include/ringnet/net/connector.hpp:78-79 | A completion that a callback hears moves the socket into a Connection, and leaves status and address as they are |
| Connectors.HandedOverIsLeftAlone | include/ringnet/net/connector.hpp:76-82 | A socket handed to a Connection is cancelled and closed by that Connection only |
| Connectors.EveryAttemptIsClosed | include/ringnet/net/connector.hpp:97-102 | Sockets of failed attempts are closed when replaced or at destruction: none is left open elsewhere |
| Connectors.UnheardIsStuck | include/ringnet/net/connector.hpp:87-88 | A refusal, or a completion for which no callback is set, changes nothing but that the request is no longer outstanding, and so leaves the Connector stuck once the call has returned |
| Connectors.ConnectedIffCallReturnedFirst | include/ringnet/net/connector.hpp:109-114 | The loop thread may complete the request before `asyncConnect` sets the status: the status ends connected exactly when the call returned before the callback did |
| Connectors.StuckIff | include/ringnet/net/connector.hpp:76-115 | Main result. In every run, once the call and the callback have returned, a completed attempt has left the Connector stuck if and only if it was refused, or no callback was set, or the callback returned before the call did |
| Connectors.StuckForGood | include/ringnet/net/connector.hpp:87-88 | From then on no call connects, whatever follows |
| Connectors.RefusedRun | include/ringnet/net/connector.hpp:84-115 | A concrete run that ends stuck: a connect is refused |
| Connectors.OvertakenRun | include/ringnet/net/connector.hpp:109-114 | A concrete run that ends stuck although connected: the callback returns before the call sets the status |
| Connectors.Connector.BeginConnect | include/ringnet/net/connector.hpp:84-111 | Takes the status machine to its next state; adds a request exactly if not pending, resolved, and configured, and leaves the status as it is in every case |
| Connectors.Connector.EndConnect | include/ringnet/net/connector.hpp:113-114 | The status is set only after the request was added |
| Connectors.Connector.BeginHandOver | include/ringnet/net/connector.hpp:78-79 | The callback gets a Connection owning the socket, with the subscriber made for it, while the status is still pending |
| Connectors.Connector.EndHandOver | include/ringnet/net/connector.hpp:80-80 | Only after the callback is the status connected |
| Connectors.Connector.Destroy | include/ringnet/net/connector.hpp:60-65 | A positive socket is cancelled, then closed |
| Acceptors.FollowingKeeps | include/ringnet/net/acceptor.hpp:60-123 | Every call, accepted client and destruction keeps the Acceptor's invariant |
| Acceptors.ListeningIffOneRequest | include/ringnet/net/acceptor.hpp:83-123 | Main result. In every run at most one accept request is pushed, with the descriptor held; the status is listening exactly when it was pushed and the call that pushed it has returned, the loop thread running freely in between |
| Acceptors.ListensIff | include/ringnet/net/acceptor.hpp:86-120 | A call pushes a request, for the descriptor just opened, exactly when the Acceptor was not listening and no step fails, and makes it listen on return; the former descriptor is then shut |
| Acceptors.CallLeavesStatus | include/ringnet/net/acceptor.hpp:83-118 | In every run a call, whatever fails in it, leaves the status as it is; the former socket is closed, not cancelled, exactly when a new one is opened |
| Acceptors.DestructionCancels | include/ringnet/net/acceptor.hpp:60-65 | In every run destruction appends the cancel and then the close of a socket above 0, also while listening, and nothing otherwise |
| Acceptors.ListeningStays | include/ringnet/net/acceptor.hpp:86-87 | Once the request is pushed, no later call pushes another or replaces the descriptor |
| Acceptors.FailedAttemptsAreClosed | include/ringnet/net/acceptor.hpp:97-112 | Descriptors of failed attempts are closed when replaced |
| Acceptors.AcceptedIffHeard | include/ringnet/net/acceptor.hpp:74-81 | A client's descriptor is received, and goes into a Connection exactly when a callback is set; the Acceptor's socket, request and status stay |
| Acceptors.UnheardClientsLeak | include/ringnet/eventHandler.hpp:23-30 | Otherwise it is never closed |
| Acceptors.UnheardRun | include/ringnet/eventHandler.hpp:23-30 | A concrete run: a client connects while no callback is set |
| Acceptors.Acceptor.BeginListen | include/ringnet/net/acceptor.hpp:83-118 | Takes the status machine to its next state; adds a request exactly if no step before failed |
| Acceptors.Acceptor.EndListen | include/ringnet/net/acceptor.hpp:120-122 | The status is set only after the request was added |
| Acceptors.Acceptor.Accepted | include/ringnet/net/acceptor.hpp:78-80 | The callback gets a Connection owning the client's descriptor, with the subscriber made for it |
| Acceptors.Acceptor.Destroy | include/ringnet/net/acceptor.hpp:60-65 | A positive socket is cancelled, then closed |

## Left out

- System calls and liburing: `socket`, `bind`, `listen`, `setsockopt`, submission and waiting are
  steps or answers of the environment.
- The guard of `run` and the alternation of its turns: the protocol lets preparation and completion passes
  follow each other freely, which includes what `run` does.
- `shouldContinueSubmitting`, which only decides about error reports, and the wait timeout of `submit`.
- Completions.CompletionQueue.ForEachCompletion: the visited entries are opaque; what happens at each is
  EventLoops.EventLoop.Visit, and the protocol joins the two.
- EventLoops.EventLoop.Pass: takes the completions that are there when it begins; those posted meanwhile are
  in Completions.CompletionQueue.ForEachCompletion. After a fault, nothing is promised.
- SubmissionQueues.SubmissionQueue.Fill: the tail does not wrap, which by `Bits.WrapKeepsSlot` leaves slots as
  they are.
- A span or buffer shorter than the result of a cancel that is taken for a read's: the model gives as many
  bytes as there are.
- EventLoops.EventLoop.Handle: returns the callback that is invoked; what the callback does is in the
  protocol (a handler may push and cancel) and in `Threads`.
- SubmissionQueues.SubmissionQueue.Push: the address is the pool's choice, hence a parameter; races on the
  pool and on the submission queue outside the lock are not modelled.
- Sockets.FileDescriptor.Destroy: destructors are methods called once; the model does not decide when a scope ends.
- Connections.Connection.Assign: all Connections belong to one loop.
- Address resolution: its success is a parameter, and an address is known by which writing it is.
- What a `WriteEvent` reports: the code passes the result as `fd` and the whole span as written.
- The bytes of single-shot reads, which lie in the caller's memory: only their count is modelled.
- Liveness, among others the eventual submission of cancels; the order in which the kernel executes entries.
- Re-arming and freeing of ended multi-shot requests, which the code never does.
- Error texts, logging, request printing, `chronoUtils.hpp`, samples and tests.
