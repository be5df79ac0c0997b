# Notification pipeline, verified

A Dafny model of the way a notification takes through this repository: the gateway's priority queue,
the loop that drains it to the broker, the delivery worker with its retries, and the dead letter queue.
`dafny verify dfyconfig.toml` checks everything.

## The parts

* **The heap** (`PriorityOrder`, `Heap`, `HeapRuns`, `Stability`, `Queue`). The class `PriorityQueue.Queue` sifts one
  slice in place, with the loops of the source, and counts its swaps and comparisons in ghost fields. Its
  methods are proved equal to the functions of `Heap`. About those functions: both repairs, for the whole
  slice; the items kept; the cost; agreement with a list kept in order, over every sequence of operations;
  the order in which a queue empties, and exactly when that order is stable.
* **The queue under threads** (`QueueProtocol`, `QueueSafety`, `QueueTheorems`, `QueueWaking`, `QueueProgress`). The same code
  cut into single steps: every lock, unlock, append, swap, signal and broadcast, the `select` of the blocking
  `Pop`, and the helper goroutine that it parks on the condition variable. A list of actions is an
  interleaving. The invariant gives mutual exclusion, linearisability with the lock order as the witness, and
  the life of every `waiting` channel. Every operation also comes to its return by its own steps, where it can.
* **The drain loop** (`Drainer`, `DrainLoop`, `GatewayThreads`, `GatewayProgress`, `GatewayOrder`). `Drainer` is the loop over atomic queue
  operations, with arrivals, cancellation and a broker that may store a message and still report an error.
  `DrainLoop` is the loop as a method. `GatewayThreads` runs the loop as one thread among any number of
  request handlers over the steps of `QueueProtocol`, and proves that this refines `Drainer`;
  `GatewayProgress` says what those threads come to do, and `GatewayOrder` in which order they publish.
* **Retry** (`Retry`, `Backoff`). The options, the loop with its three exits, and the arithmetic of the delays.
* **The dead letter queue** (`DeadLetters`). A slice over a backing array, shifted by an overlapping copy,
  with the arrays that `Drain` and `Messages` hand out.
* **The worker** (`Worker`, `Replays`). One delivery as an automaton and as the loops of the source, proved to
  have the same effects; and the oracle behind any answers that a delivery gets step by step.
* **The pipeline** (`Pipeline`, `PipelineSafety`, `PipelineLedger`, `PipelineDeliveries`,
  `PipelineProgress`, `EndToEnd`). Everything in one transition system: the drainer, the broker as a bag of unacknowledged messages, any number of worker
  processes, crashes, redelivery, lost acknowledgements and publish errors of both kinds. `EndToEnd` puts the
  threads of the gateway in the place of the drainer, so that its runs interleave single steps of every goroutine
  with everything else.

Instants and durations are integers in nanoseconds. Multipliers and jitter factors are reals, truncated to
`int64` where the source converts. What the program cannot decide is an input: the outcomes of `Send` and
`Publish`, cancellation, random factors, the clock, the choice of `select`, and the schedule.

The broker is assumed to deliver a stored message until it is acknowledged (work-queue retention,
`pkg/natsutil/natsutil.go:101`; explicit acknowledgement, `internal/delivery/worker.go:38`).

## Where the code differs from its documentation

The model follows the code. Each difference has a lemma.

* The queue's comment promises a stable order within a priority (`internal/gateway/priority/queue.go:75`).
  Items with the same level and instant need not keep their push order: three of one key pushed as a, b, c leave
  as a, c, b (`NotStable`), and h, a, b with h above the tied a and b leave as h, b, a (`NotStableBelow`). Some
  items leave stably however they are pushed, and however pops come in between, if and only if no key is
  repeated but the greatest, and that one at most twice (`StableExactly`). Whether the drained sequence depends on the push order at all is another
  question: it does not if and only if no two different items share level and instant (`CanonicalOrder`).
* `Pop` is documented to block until an item is available (`internal/gateway/priority/queue.go:110`). A signal
  that falls between its unlock and its helper's `Wait` is lost, and `Pop` then waits beside an available
  item (`LostSignal`). With items there, the mutex free and done open, a blocked `Pop` can go on by its own and
  the helpers' steps if and only if its helper has been notified (`PopGoesOnExactly`); a push's signal notifies
  the helper at the head of the list, if one has parked and not yet been notified (`SignalReaches`).
* `WithMaxDelay` is documented as a cap on the delay between retries (`pkg/retry/retry.go:73`). The first delay
  is not capped: before jitter, all delays respect the cap if and only if the base delay does, whatever
  overflows (`CapOnlyFromSecond`). Jitter comes after the cap, so even with base at the cap the first wait can be a fifth
  longer (`WaitBeyondCap`). As long as nothing overflows, the delays that are waited respect the cap, whatever the
  random factors, if and only if five quarters of the larger of the first and the last planned delay, rounded
  down, still do (`CapOnWaits`).
* A dead letter always records 3 attempts (`internal/delivery/worker.go:89`). That is the number of sends if
  and only if no wait of that channel was cancelled (`RecordedAttempts`; one send recorded as three:
  `OneSendRecordedAsThree`).
* `drainQueue` returns when `Pop` sees the closed channel; what arrived after its last emptiness check stays
  behind (`Stranded`). A stop loses nothing if and only if nothing did (`CleanStop`).
* `drainQueue` is documented to dequeue higher priorities first (`cmd/gateway-api/main.go:107-108`). What it publishes
  without further arrivals is in priority order if and only if it is not about to publish an item that something
  queued beats (`QuietStretchInOrder`; an item overtaken in hand: `WorseInHand`).
* A dead letter queue of capacity 0 makes `Push` panic, and no other capacity does (`Memory.Push`).

## Model

| member | source | states |
|---|---|---|
| PriorityQueue.Queue.Less | internal/gateway/priority/queue.go:225-231 | true exactly if the first item has the lower level, or at the same level the later instant; one comparison is counted |
| PriorityQueue.Queue.SiftUpFrom | internal/gateway/priority/queue.go:183-192 | the in-place loop computes the repair `SiftUp` and makes exactly its swaps |
| PriorityQueue.Queue.SiftDownFrom | internal/gateway/priority/queue.go:198-219 | the in-place loop computes the repair `SiftDown` and makes exactly its swaps and comparisons |
| PriorityQueue.Queue.Push | internal/gateway/priority/queue.go:100-107 | keeps the heap, adds exactly the item, and swaps at most floor(log2 n) times for the new length n |
| PriorityQueue.Queue.PopRoot | internal/gateway/priority/queue.go:156-169 | removes exactly the root, which has the highest level and the earliest instant of that level, and keeps the heap, within the logarithmic cost |
| PriorityQueue.Queue.TryPop | internal/gateway/priority/queue.go:144-153 | succeeds exactly on a non-empty queue, with the highest level and its earliest instant, and otherwise returns the zero item and changes nothing |
| PriorityQueue.Queue.Len | internal/gateway/priority/queue.go:172-176 | the number of queued items |
| Heap.SiftUpRepairs | internal/gateway/priority/queue.go:178-192 | a slice that is a heap except upwards from i becomes a heap everywhere |
| Heap.SiftUpKeepsItems | internal/gateway/priority/queue.go:183-192 | the multiset of items stays the same |
| Heap.SiftDownRepairs | internal/gateway/priority/queue.go:194-219 | a slice that is a heap except downwards from i becomes a heap everywhere |
| Heap.SiftDownKeepsItems | internal/gateway/priority/queue.go:198-219 | the multiset of items stays the same |
| Heap.RootPreferred | internal/gateway/priority/queue.go:74-75 | no item of a heap is strictly preferred to the root |
| Heap.RootIsGreatest | internal/gateway/priority/queue.go:221-231 | in plain numbers: the root has the highest level, and the earliest instant of that level |
| PriorityOrder.PreferredMeans | internal/gateway/priority/queue.go:221-231 | an item is preferred to a bag if and only if no level in it is higher and no instant of the same level earlier |
| PriorityOrder.LeavesInOrderMeans | internal/gateway/priority/queue.go:221-231 | a sequence is in leaving order if and only if no level rises and at one level no instant falls |
| Heap.PopCorrect | internal/gateway/priority/queue.go:156-169 | a pop keeps the heap, removes the root only, and nothing left behind is strictly preferred to it |
| Heap.PushCost | internal/gateway/priority/queue.go:81-81 | a push to length n makes at most floor(log2 n) swaps |
| Heap.PushCostTight | internal/gateway/priority/queue.go:183-192 | an item preferred to the whole queue takes exactly floor(log2 n) swaps |
| Heap.DownCost | internal/gateway/priority/queue.go:82-82 | a pop from length n >= 2 makes at most floor(log2(n-1)) swaps and twice as many comparisons |
| Heap.SwapsAreCompared | internal/gateway/priority/queue.go:198-219 | a sift down compares at least as often as it swaps, and with two children at least twice |
| HeapRuns.HeapRefinesList | internal/gateway/priority/queue.go:100-231 | for every sequence of Push and TryPop the heap and a list kept in order return the same flags and the same keys, ties included |
| HeapRuns.InsertInOrder | internal/gateway/priority/queue.go:221-231 | the reference list stays in leaving order |
| HeapRuns.PushThenDrainSorts | internal/gateway/priority/queue.go:100-231 | popping to empty yields a permutation of the pushed items, by level descending and then instant ascending |
| HeapRuns.DrainedByLevel | internal/gateway/priority/queue.go:100-231 | in plain numbers: in what is drained no level rises, and at one level no instant falls |
| HeapRuns.CanonicalOrder | internal/gateway/priority/queue.go:100-231 | the drained sequence is the same for every push order of the items if and only if equal keys mean equal items |
| HeapRuns.TieFollowsPushOrder | internal/gateway/priority/queue.go:225-231 | exchanging two items of equal key in the push order changes the drained sequence |
| Stability.StableExactly | internal/gateway/priority/queue.go:75-75 | however the items are pushed and however pops come in between, ties leave first in, first out, if and only if no key is repeated but the greatest one, and that one at most twice; the same with all pushes before all pops |
| Stability.TiesOnTopStable | internal/gateway/priority/queue.go:100-231 | under that condition a sequence of pushes and pops is stable |
| Stability.TiesOnTopRun | internal/gateway/priority/queue.go:100-231 | the same from any heap whose root was pushed first among its ties |
| Stability.PushRoot | internal/gateway/priority/queue.go:183-192 | a push changes the root only for an item strictly preferred to it |
| Stability.DrainIsRun | internal/gateway/priority/queue.go:100-153 | pushing all and then draining is one of these sequences |
| Stability.Twins | internal/gateway/priority/queue.go:183-231 | two push orders that build one layout cannot both drain stably if an item pushed between the two exchanged ones ties with one of them |
| Stability.LabelsArePositions | internal/gateway/priority/queue.go:225-231 | items drain by the push positions that their numbered keys drain in |
| Stability.NotStable | internal/gateway/priority/queue.go:75-75 | three items of one key, pushed as a, b, c, leave as a, c, b |
| Stability.NotStableBelow | internal/gateway/priority/queue.go:75-75 | two items of one key pushed after a greater one leave in reverse |
| QueueSafety.JustifiedKeepsHistory | internal/gateway/priority/queue.go:100-169 | an effect that fits the current slice keeps the history legal and the slice a heap of the right items |
| QueueSafety.Reachable | internal/gateway/priority/queue.go:100-153 | the whole invariant holds after every interleaving |
| QueueTheorems.LockDiscipline | internal/gateway/priority/queue.go:113-140 | never two goroutines in the critical section, never an unlock of a free mutex or an index out of range; a returning Pop owns the mutex; pop is reached only with items |
| QueueTheorems.LegalConserves | internal/gateway/priority/queue.go:100-153 | in a legal history what went in is what came out and what is still there |
| QueueTheorems.Linearisable | internal/gateway/priority/queue.go:100-153 | the effects in lock order are those of a sequential priority queue, GaveUp only after done closed; in every reachable state what went in is what came out and what the slice holds; and whenever the mutex is free the slice is the heap that the effects build |
| QueueTheorems.SettledItems | internal/gateway/priority/queue.go:183-219 | a sift in progress holds the items that it will leave |
| QueueTheorems.ReturnWitness | internal/gateway/priority/queue.go:100-153 | each returned call took effect exactly once between its start and its return and returned that effect's result |
| QueueTheorems.RealTimeOrder | internal/gateway/priority/queue.go:100-153 | a call that starts after another has returned takes effect after it |
| QueueTheorems.WaitingChannels | internal/gateway/priority/queue.go:120-126 | a waiting channel is closed at most once, and only after its helper parked and was then notified |
| QueueTheorems.LostSignal | internal/gateway/priority/queue.go:118-136 | an interleaving after which the queue holds an item and no goroutine can move although a Pop waits |
| QueueProgress.PushReturns | internal/gateway/priority/queue.go:100-107 | in every reachable state with a free mutex an idle thread that pushes comes by its own steps to return, having taken exactly that effect |
| QueueProgress.TryPopReturns | internal/gateway/priority/queue.go:144-153 | so does one that calls TryPop: with the root taken out, or with nothing from an empty queue |
| QueueProgress.PopReturns | internal/gateway/priority/queue.go:113-140 | so does one that calls Pop while there are items |
| QueueProgress.PopGivesUp | internal/gateway/priority/queue.go:128-132 | a waiting Pop whose done channel is closed returns false in four steps of its own, leaves the slice alone and the mutex free |
| QueueWaking.SignalReaches | internal/gateway/priority/queue.go:106-106 | the signal of a push wakes the helper at the head of the list and no other, so it wakes one if and only if one has parked and not yet been notified |
| QueueWaking.LongestParkedFirst | internal/gateway/priority/queue.go:106-126 | the helpers on the list are in the order in which they parked, so a signal wakes the one parked longest |
| QueueWaking.PopGoesOnExactly | internal/gateway/priority/queue.go:109-139 | with items there, the mutex free and done open, a waiting Pop can come to remove the root by its own and the helpers' steps if and only if its helper has been notified |
| QueueWaking.SignalLetsPopThrough | internal/gateway/priority/queue.go:106-139 | from every reachable state with a free mutex and a non-empty slice in which the helper of a waiting Pop heads the list, a push's signal lets that Pop come to remove the root |
| QueueWaking.GiveUpWakesAll | internal/gateway/priority/queue.go:129-132 | Pop gives up only after done is closed, removes nothing and leaves no helper asleep |
| Drainer.Conservation | cmd/gateway-api/main.go:109-134 | in every run each arrival is in the queue, in the loop's hand or published, counted with multiplicity |
| Drainer.CleanStop | cmd/gateway-api/main.go:111-115 | after a return the published items are exactly what had arrived at the last emptiness check, the rest is in the queue; nothing is lost if and only if nothing arrived since |
| Drainer.Stranded | cmd/gateway-api/main.go:111-115 | an item pushed between the last emptiness check and the stop stays behind |
| Drainer.AheadStep | cmd/gateway-api/main.go:111-127 | no event publishes more than it takes from what is ahead of x, and a failure or re-queue adds nothing |
| Drainer.OvertakingBound | cmd/gateway-api/main.go:111-127 | until x is published, the items published after its push are at most those queued and later arriving whose key is not below, plus one in hand |
| Drainer.QuietStretchInOrder | cmd/gateway-api/main.go:107-127 | after any run, every stretch without arrivals publishes in priority order whatever fails, if and only if the loop is not about to publish an item that something queued beats |
| Drainer.QuietStretchByLevel | cmd/gateway-api/main.go:107-127 | in plain numbers: if the item in hand is not beaten, then without arrivals no level rises in what is published, and at one level no instant falls |
| Drainer.WorseInHand | cmd/gateway-api/main.go:111-127 | a better item that arrives while a worse one is in hand is published after it |
| Drainer.RequeueNeutral | cmd/gateway-api/main.go:117-125 | a failed round changes the queue by the arrivals only, and the next item has the failed key or beats it and is new |
| DrainLoop.OneTurn | cmd/gateway-api/main.go:111-127 | one round of the loop does to the queue and the broker what the events of that round do |
| DrainLoop.DrainQueue | cmd/gateway-api/main.go:109-134 | the loop is a run of the drainer machine, ends early only by returning, and balances what was there and what arrived with what is queued and published |
| GatewayThreads.StepSim | cmd/gateway-api/main.go:109-134 | every single step of a handler, of the loop or of a helper is no event or one event of the drainer machine |
| GatewayThreads.GatewayRefinesDrainer | cmd/gateway-api/main.go:109-134 | every interleaving of the real steps is a run of the drainer machine |
| GatewayThreads.EndedCleanly | cmd/gateway-api/main.go:111-115 | for the threads: when the loop has ended, done is closed, exactly what was enqueued before it last saw the queue empty is published, and the slice holds exactly the rest |
| GatewayOrder.Overtaking | cmd/gateway-api/main.go:111-127 | for the threads: from the step at which a handler appends x, until x is published, at most the items in the slice and later arrivals whose key is not below, plus one in hand, are published |
| GatewayOrder.QuietThreads | cmd/gateway-api/main.go:107-127 | for the threads: if nothing in the slice beats the item in hand, every stretch without arrivals publishes in priority order; and with the mutex free, only then |
| GatewayProgress.HandlerAppends | internal/gateway/rest.go:96-101 | with the mutex free a handler's call and two steps put its item at the end of the slice, as the next arrival |
| GatewayProgress.HandlerReturns | internal/gateway/rest.go:96-101 | with the mutex free an idle handler that pushes comes to return by its own steps; its item has arrived and is in the slice |
| GatewayProgress.LoopPops | cmd/gateway-api/main.go:111-115 | with items there and the mutex free the loop comes to hold the root by its own steps |
| GatewayProgress.LoopAppends | cmd/gateway-api/main.go:124-125 | with the mutex free three steps of the loop put a failed item back at the end of the slice |
| GatewayProgress.FailedComesBack | cmd/gateway-api/main.go:117-127 | after a failed publish the loop comes back to its start by its own steps, with the item in the slice |
| GatewayProgress.LoopEnds | cmd/gateway-api/main.go:113-115 | waiting in Pop with done closed and the mutex free, the loop comes to its end by its own steps and changes nothing in the slice |
| GatewayProgress.NotifiedLoopPops | internal/gateway/priority/queue.go:120-139 | waiting in Pop with items there and its helper notified, the loop comes to hold the root by the helper's steps and its own |
| Retry.Settings.constructor | pkg/retry/retry.go:37-44 | the defaults, in plain numbers |
| Retry.Settings.Set | pkg/retry/retry.go:55-91 | an option changes its own field, and only for a positive value |
| Retry.NoOptions | pkg/retry/retry.go:37-44 | without options: 3 attempts, 100 ms, at most 10 s, doubling |
| Retry.OneMoreOption | pkg/retry/retry.go:55-91 | one more option replaces its own field by a positive value, and nothing else |
| Retry.FoldTakesLast | pkg/retry/retry.go:55-91 | after any list of options every field is the last positive value supplied for it, or its default |
| Retry.Configure | pkg/retry/retry.go:103-106 | the options are applied in order to the defaults, and every field ends up positive |
| Retry.Do | pkg/retry/retry.go:102-141 | how the loop ends for any outcomes and any options, after how many calls, and exactly which durations it hands to the timer: each its planned delay times its random factor, rounded down |
| Retry.JitterIsProduct | pkg/retry/retry.go:147-151 | the jittered delay is the delay times the factor, rounded down |
| Retry.ConversionDropsFraction | pkg/retry/retry.go:134-150 | a conversion of a real below 2^63 drops the fraction |
| Retry.Trichotomy | pkg/retry/retry.go:95-99 | success if and only if a call succeeds after only undisturbed failures, the exhausted error if and only if all calls fail undisturbed, the context's error if and only if a wait before the last call is cancelled first |
| Retry.EndedUnique | pkg/retry/retry.go:102-141 | the outcomes determine the result and the number of calls |
| Backoff.NoOverflow | pkg/retry/retry.go:133-137 | if the larger of base and cap times the multiplier is below 2^63, the machine's delays are the ideal ones |
| Backoff.GrowthBound | pkg/retry/retry.go:133-137 | the k-th delay is at most base * m^k, and from the second on at most the cap |
| Backoff.GrowthStep | pkg/retry/retry.go:133-137 | each delay is the one before times the multiplier, rounded down, or the cap exactly if the product reaches it |
| Backoff.GrowthFloor | pkg/retry/retry.go:133-137 | a delay below the cap is at least the product less one per rounding, for multipliers of at least 1 |
| Backoff.Nondecreasing | pkg/retry/retry.go:133-137 | delays never shrink for a multiplier of at least 1 and a base within the cap |
| Backoff.WholeMultiplier | pkg/retry/retry.go:83-91 | with a whole multiplier m the k-th delay is exactly min(cap, base * m^k) from the second on |
| Backoff.CapOnlyFromSecond | pkg/retry/retry.go:109-137 | before jitter the code's delays all respect the cap if and only if the base delay does, for every configuration and whatever overflows |
| Backoff.LargestDelay | pkg/retry/retry.go:133-137 | the largest of the first n delays is the first or the last |
| Backoff.CapOnWaits | pkg/retry/retry.go:73-81 | no wait of the first n exceeds the cap, whatever the random factors, if and only if 5/4 of the larger of the first and the last planned delay, rounded down, does not |
| Backoff.CapOnWaitsWhole | pkg/retry/retry.go:73-91 | the same in closed form for a whole multiplier |
| Backoff.WaitBeyondCap | pkg/retry/retry.go:124-131 | with base and cap both 10 s a first wait of 12 s is possible |
| Backoff.JitterRange | pkg/retry/retry.go:143-151 | a jittered delay lies between floor(3d/4) and 5d/4 |
| Backoff.WaitIsProduct | pkg/retry/retry.go:120-151 | without overflow the k-th wait is the ideal k-th delay times the k-th factor, rounded down |
| Backoff.TotalWait | pkg/retry/retry.go:120-137 | the requested waits add up to at least the sum of floor(3d/4) and at most 5/4 of the sum of the delays |
| Backoff.TotalWaitDoubling | pkg/retry/retry.go:120-137 | with multiplier 2 and n waits the total is at most 1.25*base*(2^n-1), and at most 1.25*(base+(n-1)*cap) |
| DeadLetters.Memory.constructor | pkg/dlq/dlq.go:84-89 | an empty queue over an array of the given capacity |
| DeadLetters.Memory.ShiftLeft | pkg/dlq/dlq.go:101-105 | the overlapping copy moves the slice one place to the left and drops its first message exactly |
| DeadLetters.Memory.Push | pkg/dlq/dlq.go:93-109 | appends the message, the same in every field but for a zero FailedAt, which becomes the clock, to the epoch and to the contents, keeps the last `capacity` messages in the same array, and panics exactly for capacity 0 |
| DeadLetters.WindowIsEnd | pkg/dlq/dlq.go:101-107 | the window is the end of the epoch, as long as the capacity allows |
| DeadLetters.Memory.Len | pkg/dlq/dlq.go:112-116 | the number of messages in the window |
| DeadLetters.Memory.Messages | pkg/dlq/dlq.go:120-127 | a copy of the contents in an array of its own |
| DeadLetters.Memory.Drain | pkg/dlq/dlq.go:131-138 | hands over the contents and the array itself, and starts a new epoch in a new array |
| DeadLetters.WindowStep | pkg/dlq/dlq.go:101-107 | dropping the oldest of a full window and appending gives the window of the longer sequence |
| DeadLetters.Client | pkg/dlq/dlq.go:77-138 | after any program of pushes, copies and drains, every slice ever returned still shows, message by message, the last pushes since the drain before it, and so do the contents |
| DeadLetters.ShownKept | pkg/dlq/dlq.go:93-138 | what copies and drains show keeps every field of what was pushed |
| Worker.OptionsFold | internal/delivery/worker.go:76-78 | 3 attempts, 500 ms, at most 10 s, doubling, in plain nanoseconds |
| Worker.WorkerDelays | internal/delivery/worker.go:76-78 | the delays before jitter are 500 ms and 1 s |
| Worker.TaskRuns | internal/delivery/worker.go:75-94 | the steps of a delivery run to the end are the channels one after the other and then the ack |
| Worker.PerChannel | internal/delivery/worker.go:75-94 | channels in order and one final ack; each channel gets 1 to 3 sends ending with its first success, and exactly if none succeeds one letter with this topic, these bytes, its error and the time |
| Worker.UndecodableAcked | internal/delivery/worker.go:68-73 | a message that does not decode is acknowledged and nothing else happens |
| Worker.RecordedAttempts | internal/delivery/worker.go:89-89 | the recorded 3 is the number of sends of a failed channel if and only if none of its waits was cancelled |
| Worker.OneSendRecordedAsThree | internal/delivery/worker.go:76-90 | one failed send with its wait cancelled leaves a letter that records 3 attempts |
| Worker.WaitsPerChannel | internal/delivery/worker.go:76-78 | one channel asks the timer for at most 1875 ms |
| Worker.DeliveryWorker.Attempt | internal/delivery/worker.go:76-78 | the retry loop under the worker's options makes the sends of this channel and ends as they say; its waits are at most two, 500 ms and 1 s times their factors, rounded down |
| Worker.DeliveryWorker.Deliver | internal/delivery/worker.go:76-91 | one channel: its sends, and its letter into the dead letter queue exactly if they failed |
| Worker.DeliveryWorker.DeliverAll | internal/delivery/worker.go:75-92 | every channel in order, whatever failed before |
| Worker.DeliveryWorker.HandleMessage | internal/delivery/worker.go:67-95 | the loops have exactly the effects of the delivery automaton, in its order, and bury its letters |
| Pipeline.TaskGrows | internal/delivery/worker.go:75-94 | what a delivery has achieved stays achieved whatever the others do |
| PipelineSafety.StepKeepsInv | internal/delivery/worker.go:35-95 | gateway events, deliveries, worker steps, lost acks and crashes keep the invariant |
| PipelineSafety.Accounting | cmd/gateway-api/main.go:109-134 | in every reachable state each pushed notification is queued, in hand or in the stream, counted with multiplicity, and every stream message is unacknowledged or dealt with on every registered channel |
| PipelineSafety.FateOf | internal/delivery/worker.go:67-95 | the same for a single notification |
| PipelineSafety.Quiescent | internal/delivery/worker.go:67-95 | when nothing is left to do, every decodable notification has a successful send or a DLQ push on every channel |
| PipelineSafety.NothingInvented | internal/delivery/worker.go:75-91 | each send and each letter is for a notification that arrived, on a registered channel, and a letter carries its bytes |
| PipelineSafety.DeliveryIsHandle | internal/delivery/worker.go:55-57 | a delivery whose steps nobody interrupts leaves exactly the effects of handleMessage |
| PipelineProgress.StillDeliverable | internal/delivery/worker.go:44-58 | in every state any message that is not acknowledged can be handed to any worker, even after a crash of that worker, and then be handled from start to end and acknowledged |
| PipelineProgress.LostAckRedelivers | internal/delivery/worker.go:94-94 | a lost acknowledgement leaves the message to be delivered again |
| PipelineLedger.LedgerHolds | internal/delivery/worker.go:80-94 | a message counts as acknowledged if and only if an ack for it is recorded, and a process holds the last `capacity` of exactly the letters that it has recorded since it started |
| PipelineLedger.FateOfLetter | pkg/dlq/dlq.go:93-109 | a recorded letter is lost with its process, in that process's queue, or pushed out by `capacity` later ones of the same process |
| PipelineLedger.AckedIsFinal | pkg/natsutil/natsutil.go:101-101 | a check that the model has the assumed retention: an acknowledged message stays acknowledged and is never handed to a worker again |
| PipelineDeliveries.DeliveryIsPrefix | internal/delivery/worker.go:67-95 | in every reachable state what a delivery has left in the history is a prefix of handling its message under some oracle, and per channel a prefix of that channel's sends and letter, whatever else happens between its steps |
| PipelineDeliveries.DeliveryInProgress | internal/delivery/worker.go:67-95 | while its worker lives, what a delivery has done and what is left for it make up the whole handling |
| PipelineDeliveries.OncePerDelivery | internal/delivery/worker.go:75-91 | one delivery gives a channel at most one successful send or letter, in every run |
| PipelineDeliveries.StreamCounts | cmd/gateway-api/main.go:117-127 | the broker holds a notification once for each accepted publish and each error that hid a stored message |
| PipelineDeliveries.AtMostPerDelivery | internal/delivery/worker.go:75-91 | in every run a channel gets a successful send or a letter for a message at most as often as the message is delivered |
| PipelineDeliveries.AtMostOnce | internal/delivery/worker.go:75-91 | without redelivery and without such errors a notification pushed once gets at most one successful send or letter per channel |
| Replays.ReplayHasOracle | internal/delivery/worker.go:75-94 | whatever answers a delivery got, one oracle gives them all, and the rest of the delivery follows it |
| Replays.ServedOnce | internal/delivery/worker.go:75-94 | a whole delivery gives each registered channel exactly one successful send or letter |
| EndToEnd.KeptIsStored | cmd/gateway-api/main.go:117-127 | the broker keeps something only at the publishing step, the same on both levels |
| EndToEnd.SystemRefinesPipeline | cmd/gateway-api/main.go:109-134 | every interleaving of the steps of handlers, drain loop, helpers, broker and workers is a run of the pipeline |
| EndToEnd.SystemAccounting | cmd/gateway-api/main.go:109-134 | in every reachable state what handlers enqueued is what the slice holds, the loop has in hand and the broker confirmed, with multiplicity; every stream message is unacknowledged or dealt with on every channel |
| EndToEnd.ArrivedIsAccounted | internal/gateway/priority/queue.go:100-107 | in every reachable state, for one notification whose push has taken effect, in terms of the slice and of where the loop stands |
| EndToEnd.PushedIsAccounted | internal/gateway/rest.go:96-101 | the same for every notification whose Push by a handler has returned |

## Left out

- PriorityQueue.Queue.Push: the class is the queue without its mutex and condition variable; those are in `QueueProtocol`, whose steps settle to the same functions.
- PriorityQueue.Queue.TryPop: as for Push, the locking is in `QueueProtocol`.
- PriorityQueue.Queue.Len: under threads `Len` is not modelled; it only reads under the mutex.
- DrainLoop.DrainQueue: runs against a finite script of its environment, because the loop need not end: `Pop` ignores `done` while items remain and failed items come back. Each wait of `Pop` is one turn of the script; the real waiting is in `GatewayThreads`. The pause after a failure changes nothing that is modelled.
- QueueProgress.PopReturns: like the other statements of what threads come to do, this says what their own steps lead to from a free mutex; that a scheduler takes those steps is not modelled.
- QueueWaking.PopGoesOnExactly: says what is possible, not what a scheduler does; no claim that a helper goroutine never outlives its `Pop`.
- Retry.Do: the wrapped error keeps its cause but not its text, and the function called is its sequence of outcomes.
- Backoff.JitterRange: jitter is real, with a closed upper bound of 1.25 where rounding may reach it; floating-point rounding, infinities and NaN multipliers are not modelled. A conversion outside `int64` yields an arbitrary value, passed as `junk`.
- DeadLetters.Memory.Messages: each method is one atomic step because it holds the mutex throughout; the byte slices and maps inside messages are values, so sharing of those is not captured.
- DeadLetters.Memory.constructor: a negative capacity, at which `make` panics, is excluded by the type.
- Worker.DeliveryWorker.HandleMessage: requires a dead letter queue of capacity at least 1, as the worker's 10000 is; at capacity 0 `Push` panics. The text of a letter's error is kept as channel name and cause, and decoding is a parameter.
- DeadLetters.Client: requires capacity at least 1 for the same reason; `Memory.Push` covers capacity 0.
- PipelineSafety.DeliveryIsHandle: only for steps with nobody in between; PipelineDeliveries covers every interleaving.
- PipelineSafety.Quiescent: a push to a dead letter queue counts, even where the letter is dropped later or lost with its process, whose queue is in memory (`FateOfLetter` tells the three apart).
- GatewayOrder.QuietThreads: with the mutex taken only one direction is stated; a handler that is about to append holds the loop up until it has done so, which is an arrival.
- PipelineSafety.Accounting: a crash of the gateway, whose queue is in memory, and the expiry of stream messages are excluded, and with them any claim across those events.
- The stream consumer's `Fetch` is the step that hands a message to an idle worker; its errors and waits change nothing.
- Growth of the heap's backing array: the slice is a sequence field, since no alias of it is ever handed out.
- First in, first out among equal instants: the request handler takes the time before the lock (`internal/gateway/rest.go:96-101`), so order is stated by key.
- Routing by the `channel` field, SLA deadlines, deduplication, rate limits and the circuit breaker: described but not in the modelled code; every registered channel is sent to.
- HTTP servers, the JSON codec, HMAC, the senders, logging, metrics, tracing, storage and configuration: library calls or I/O.
- `Level.String`, `ParseLevel`, `FormatError`, analytics and health checks: lookups and counters that would add only easy members.
