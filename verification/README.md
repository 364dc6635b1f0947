# Verified models of an RDMA RPC runtime

Dafny models of the parts of the runtime whose correctness rests on an inductive argument: the
lock-free queue, the completion ring and its submission accounts, the two stop/complete races, the
hybrid logical clock, connections and their outstanding requests, the two-pass serializer, buffer
ownership, RPC argument packing, and the rendezvous descriptors of active messages.

`dafny verify dfyconfig.toml` checks the whole project.

## How the models are built

- **Concurrent protocols** (`LockFreeQueue`, `CancelRace`, `TimerRace`) are transition systems: one
  step is one atomic load, store or read-modify-write of one thread (a stop callback on the I/O thread
  is one step: no other thread touches the operation meanwhile), a schedule is any sequence of steps,
  and every theorem is about all schedules. Memory is sequentially consistent.
- **Objects that update fields** (`CompletionRing.AmContext`, `RequestLifecycle.Worker`,
  `ConnectionManager.ConnectionManager`, `HybridLogicalClock.HybridLogicalClock`, the two serializer
  targets, `BufferOwnership.UcxBuffer`, `RpcArguments.RpcRequestHeader`, `AmDescriptors.AmDescMap`
  and `AmDescriptors.AmContext`) are classes. Each method's contract gives the object's whole new
  state as a function of its old one; the theorems about whole runs are lemmas about those functions.
- **UCX is the environment.** It may complete any request it still holds, once, with any status,
  after the posting call returned, and also inside a call that cancels it. What it returns is a
  parameter of the operation. So are clock readings, lookups that may fail, and callbacks.
- **Machine integers** wrap where the code's do: the ring's 32-bit counters, the clock's 64-bit word
  with its 48-bit physical part, the 64-bit sum of buffer sizes, and the 64-bit descriptor key. The
  ring's mask by 255 is written as the remainder by 256.

## What was found false, and exactly when

- A clock goes backwards when a counter at 65,535 is bumped, or when a wall-clock reading that does
  not fit 48 bits leads: `AdvancePassesBothIffRoom` and `ClockConditionIffRoom` are the exact
  conditions, `WrapGoesBackwards`, `LongReadingGoesBackwards` and `ShortRunBoundIsTight` inputs.
- `to_buffer_vec` accepts sizes whose 64-bit sum wraps and then hands out views outside the block:
  `AcceptedSplitIsSafeIff` is the exact condition, `WrappingSplitEscapes` an input.
- A rendezvous descriptor is lost, neither received into nor released, when its connection is gone,
  when its length is zero, when preparing its buffer throws, or when its key is still taken:
  `DropsExactlyWhenLost` is the exact condition, `ReceivingCanLoseDescriptor`,
  `HeaderCanLoseDescriptor` and `KeysRepeat` are runs. Keys repeat after 2^64 of them:
  `KeysAreFreshIff` and `KeysRepeat`.
- Adding a connection under an id that is still active, or deactivating one whose id is also
  inactive, leaves the old connection in a slot that nothing names: `OrphansExactlyWhenReused`,
  `ReusedIdOrphans` and `ReusedInactiveIdOrphans`; that the orphans are what unnamed slots really hold is part of `Valid`.
- `remove_active_connections_to_disconnecting_queue` empties slots without putting them on the free
  list. Its contract names the leaked slots, no other method may change which they are, and
  `LeaksExactlyWhenAllMoved`, `LeakedSlotsStayLeaked` and `MoveAllLeaks` are the condition, the
  consequence and a run.
- A submission that is counted but posts nothing keeps its slot for good: `SlotsComeBackIff` says
  when, `RoomComesBackIff` that 256 of them are what stops the context, and
  `EarlyReturnsStopTheContext` is a run that does.
- A moved-to handle that declares itself an owner of a block its source did not own takes on a second
  duty to release it: `ReleasedOnceByItsReleaser` is the exact condition, `DeclaredOwnerReleasesTwice`
  a run.
- A request that Validate accepts need not deliver its payload. Nobody checks that the caller's
  payload is of the type the function reads, and of several parameters that read the one payload each
  finds it gone once one took it by value: `RoundTrip` and `ValidatedCallDeliversIff` are the exact
  conditions, `WrongKindIsMisread`, `SecondTakerGetsNothing` and `EarlierReferenceSeesNothing` inputs.

## Model

| member | source | states |
|---|---|---|
| LockFreeQueue.Linearizable | ucx_context/lock_free_queue.hpp:80-146 | in every interleaving of any number of pushers, poppers and emptiness tests, with spurious failures, an idle thread begins the very call it was asked to make, and the steps are ones a sequential queue allows: a successful next-CAS appends the caller's value once, a successful head-CAS removes and returns the front, a failed pop or an emptiness answer reports what held at an instant inside that call; and that queue is what a walk through memory finds |
| LockFreeQueue.NeverFaults | ucx_context/lock_free_queue.hpp:84-131 | no reachable step dereferences a null or unallocated node, in particular not head_next after a successful head-CAS |
| LockFreeQueue.TailFollowsHead | ucx_context/lock_free_queue.hpp:84-131 | in every reachable state tail_ is reached from head_ by next links and lags the last node by at most one |
| LockFreeQueue.FirstInFirstOut | ucx_context/lock_free_queue.hpp:80-132 | over every schedule, the values unlinked in order followed by those still queued are the values linked, in order |
| LockFreeQueue.OnlyPushedValuesAreLinked | ucx_context/lock_free_queue.hpp:80-108 | every linked value is the argument of a push some caller made, each push linking at most once; with no call under way, exactly the pushed values were linked |
| LockFreeQueue.LockFree | ucx_context/lock_free_queue.hpp:80-146 | from every reachable state, among any 15 steps per thread and one more, without spurious failures and however the threads interleave, some step links a value, unlinks one or returns from a call |
| LockFreeQueue.CallsFinishAlone | ucx_context/lock_free_queue.hpp:80-146 | from every reachable state, a thread left alone, with no spurious failure, finishes the call it is in within 14 steps |
| LockFreeQueue.RunKeepsInv | ucx_context/lock_free_queue.hpp:57-61 | from the dummy node on, every reachable state is a chain with head, tail and each thread's locals placed on it, matching the sequential queue |
| LockFreeQueue.StepKeepsInv | ucx_context/lock_free_queue.hpp:84-146 | each atomic step of each call keeps that shape and is matched by a step of the sequential queue |
| LockFreeQueue.HeadSwapIsSafe | ucx_context/lock_free_queue.hpp:117-125 | a head-CAS that succeeds after the checks has a next node to move to: head_ does not pass tail_ |
| LockFreeQueue.NextIsRead | ucx_context/lock_free_queue.hpp:113-115 | at the load of the next link behind a head that was loaded before, a null means that the queue is empty at that instant and that the loaded tail is that head; otherwise it is the node behind it |
| HybridLogicalClock.BitsAreArithmetic | rpc_core/utils/hybrid_logical_clock.hpp:171-179 | the shifts and masks of the packed layout are the arithmetic of the model |
| HybridLogicalClock.PackKeepsParts | rpc_core/utils/hybrid_logical_clock.hpp:171-174 | packing keeps the counter, and the physical part modulo 2^48 |
| HybridLogicalClock.HybridLogicalClock.FromParts | rpc_core/utils/hybrid_logical_clock.hpp:52-54 | the two parts can be read back, the physical one modulo 2^48 |
| HybridLogicalClock.HybridLogicalClock.Merge | rpc_core/utils/hybrid_logical_clock.hpp:84-123 | both paths give the later stamp with its counter bumped, or the wall clock with counter zero when that has passed the later stamp |
| HybridLogicalClock.HybridLogicalClock.TickLocal | rpc_core/utils/hybrid_logical_clock.hpp:70-74 | a local event is a merge with the clock itself |
| HybridLogicalClock.HybridLogicalClock.Assign | rpc_core/utils/hybrid_logical_clock.hpp:125-127 | the assigned parts can be read back, the physical one modulo 2^48 |
| HybridLogicalClock.HybridLogicalClock.BumpLogicalCounter | rpc_core/utils/hybrid_logical_clock.hpp:131-134 | adds one to the counter, wrapping to zero, and leaves the physical part |
| HybridLogicalClock.AdvancePassesBothIffRoom | rpc_core/utils/hybrid_logical_clock.hpp:84-123 | a merge exceeds both stamps if and only if the counter it bumps is not 65,535 and the wall clock that leads fits 48 bits |
| HybridLogicalClock.AdvanceIsLamport | rpc_core/utils/hybrid_logical_clock.hpp:84-123 | with that room, a merge is max(max(local, remote) + 1, wall clock) on raw stamps |
| HybridLogicalClock.AdvanceParts | rpc_core/utils/hybrid_logical_clock.hpp:84-123 | both parts of a merged stamp, room or not: a wall clock that leads gives its low 48 bits and counter zero, otherwise the later stamp counts one up or wraps to zero |
| HybridLogicalClock.WrapGoesBackwards | rpc_core/utils/hybrid_logical_clock.hpp:176-179 | a concrete stamp that a merge sends back to zero |
| HybridLogicalClock.LongReadingGoesBackwards | rpc_core/utils/hybrid_logical_clock.hpp:99-101 | a reading of 2^48 that leads a stamp sends it back to zero |
| HybridLogicalClock.ClockConditionIffRoom | rpc_core/utils/hybrid_logical_clock.hpp:68-123 | in every run of any number of nodes exchanging stamped messages, happens-before implies a smaller raw stamp and every stamp exceeds its node's starting stamp, if and only if every event had room |
| HybridLogicalClock.StampCounterBound | rpc_core/utils/hybrid_logical_clock.hpp:84-123 | from fresh clocks the k-th event of any run has a counter of at most k |
| HybridLogicalClock.EarlyEventHasRoom | rpc_core/utils/hybrid_logical_clock.hpp:84-123 | from fresh clocks and with 48-bit readings each of the first 65,535 events has room |
| HybridLogicalClock.ShortRunsRespectCausality | rpc_core/utils/hybrid_logical_clock.hpp:84-123 | a run of fewer than 65,536 events meets the clock condition with no assumption on counters |
| HybridLogicalClock.ShortRunBoundIsTight | rpc_core/utils/hybrid_logical_clock.hpp:176-179 | 65,536 events at one node against a stopped wall clock violate it |
| HybridLogicalClock.PhysicalPartIsCausal | rpc_core/utils/hybrid_logical_clock.hpp:84-123 | the physical part of a stamp is a wall-clock reading or starting stamp of an event in its causal past |
| CompletionRing.RunStaysBalanced | ucx_context/ucx_am_context/ucx_am_context.hpp:839-856 | at every step boundary of every run, ring occupancy plus operations still able to post is at most the two counts, which are together at most 256 and never negative; there is room exactly below 256 |
| CompletionRing.RunIsFifo | ucx_context/ucx_am_context/ucx_am_context.cpp:369-443 | over every run, what was drained followed by what is pending is what was posted, in order, and the local queue got the operations' results in that order |
| CompletionRing.CompletionsAreOperations | ucx_context/ucx_am_context/ucx_am_context.cpp:385-434 | the local queue gets exactly the operations' entries, each with its own id and result, at the position its entry has among them |
| CompletionRing.TimersAreNoticed | ucx_context/ucx_am_context/ucx_am_context.cpp:385-434 | a run marks its timers as due exactly when it drained a timer entry whose result is not a cancellation |
| CompletionRing.RunConservesRequests | ucx_context/ucx_am_context/ucx_am_context.hpp:989-1012 | over every run, each submission that will post is either in flight or has posted exactly one entry |
| CompletionRing.AbandonedSlotsStayTaken | ucx_context/ucx_am_context/ucx_am_context.hpp:989-1012 | once 256 slots were abandoned nothing is let in, in any continuation |
| CompletionRing.SlotsComeBackIff | ucx_context/ucx_am_context/ucx_am_context.hpp:989-1012 | a run loses no slot if and only if none of its steps is a submission that is let in, counted and posts nothing |
| CompletionRing.QuietCountsAreAbandoned | ucx_context/ucx_am_context/ucx_am_context.hpp:839-848 | with nothing pending and nothing in flight the two counts are exactly the abandoned slots, and there is room if and only if they are fewer than 256 |
| CompletionRing.RoomComesBackIff | ucx_context/ucx_am_context/ucx_am_context.hpp:845-848 | some continuation lets a submission in again if and only if fewer than 256 slots were abandoned |
| CompletionRing.EarlyReturnsStopTheContext | ucx_context/ucx_am_context/ucx_am_context.hpp:2382-2392 | 256 early returns leave nothing pending and nothing in flight, and nothing is ever let in again |
| CompletionRing.ApplyKeepsBalance | ucx_context/ucx_am_context/ucx_am_context.cpp:390-441 | every operation keeps the exact meaning of the two counts, including the wake-up entry whose counts are fixed at drain time |
| CompletionRing.WrapKeepsSlot | ucx_context/ucx_am_context/ucx_am_context.cpp:388 | a 32-bit counter that wrapped still names the same slot under the mask |
| CompletionRing.CountSurvivesWrap | ucx_context/ucx_am_context/ucx_am_context.cpp:378 | the difference of the wrapped head and tail is the number of entries between them |
| CompletionRing.AmContext.constructor | ucx_context/ucx_am_context/ucx_am_context.hpp:924-959 | starts as the empty account |
| CompletionRing.AmContext.PutEntry | ucx_context/ucx_am_context/ucx_am_context.cpp:977-985 | appends one entry and overwrites none that is not drained |
| CompletionRing.AmContext.GetCompletionQueueEntry | ucx_context/ucx_am_context/ucx_am_context.hpp:852-856 | moves one count from unflushed to pending and appends the entry |
| CompletionRing.AmContext.CompleteRequest | ucx_context/ucx_am_context/ucx_am_context.hpp:852-856 | a request in flight posts its one entry and the account moves accordingly |
| CompletionRing.AmContext.CanSubmitIo | ucx_context/ucx_am_context/ucx_am_context.hpp:845-848 | answers by the account's two counts |
| CompletionRing.AmContext.RunPopulate | ucx_context/ucx_am_context/ucx_am_context.hpp:1927-1934 | what each kind of populate step does to the counts and the ring before the submission is counted |
| CompletionRing.AmContext.TrySubmitIo | ucx_context/ucx_am_context/ucx_am_context.hpp:989-1012 | admits exactly when the counts allow and the populate step accepts, with the account of what was posted, started, parked or abandoned |
| CompletionRing.AmContext.TryRegisterRemoteQueueNotification | ucx_context/ucx_am_context/ucx_am_context.cpp:454-476 | arms the wake-up and counts it unless the remote queue already had items or there is no room |
| CompletionRing.AmContext.SignalRemoteQueue | ucx_context/ucx_am_context/ucx_am_context.cpp:478-498 | posts the wake-up once per arming and leaves the counts alone |
| CompletionRing.AmContext.CollectCompletions | ucx_context/ucx_am_context/ucx_am_context.cpp:385-434 | the loop delivers the operations' results in ring order, settles the wake-ups' counts and notices elapsed timers |
| CompletionRing.AmContext.Occupancy | ucx_context/ucx_am_context/ucx_am_context.cpp:372-379 | the wrapping difference is the number of pending entries, zero exactly when head equals tail |
| CompletionRing.AmContext.AcquireCompletionQueueItems | ucx_context/ucx_am_context/ucx_am_context.cpp:369-443 | drains every pending entry and leaves the account emptied |
| CancelRace.SignalsExactlyOnce | ucx_context/ucx_am_context/ucx_am_context.hpp:3502-3607 | for both senders, in every interleaving of completion, retry, local and remote stop: at most one terminal signal, delivered if and only if every party dropped its reference and the last is through; no assertion of the protocol fails |
| CancelRace.SignalIsRight | ucx_context/ucx_am_context/ucx_am_context.hpp:3556-3607 | a stop that took its reference ends in done; without a stop request the signal is a value if and only if the status is at least 0, done if and only if it is -16, and an error for every other one, where the status is the one the environment gave the operation in the step that posted or completed it |
| CancelRace.SignallingStepDecides | ucx_context/ucx_am_context/ucx_am_context.hpp:3556-3585 | a stop requested by the time of the signalling step makes it done, whoever won; without one it is the signal for the status |
| CancelRace.StopTakesEffect | ucx_context/ucx_am_context/ucx_am_context.hpp:3502-3518 | a stop request reaches an operation that still holds its reference: two steps of its own path take a second reference and raise the flag, two more post its cancellation |
| CancelRace.CancelledIsNotPosted | ucx_context/ucx_am_context/ucx_am_context.hpp:1553-1568 | an operation that sees the cancel flag before it populates posts no request in any continuation |
| CancelRace.WithoutSlotItWaits | ucx_context/ucx_am_context/ucx_am_context.hpp:3496-3500 | without a free slot nothing is populated, posted or signalled, and a stop waits for its own slot |
| CancelRace.WithoutLookupItStartsOver | ucx_context/ucx_am_context/ucx_am_context.hpp:1573-1597 | a receive whose lookups all fail starts over each time and is signalled only if it is stopped |
| CancelRace.NothingRunsAfterSignal | ucx_context/ucx_am_context/ucx_am_context.hpp:1734-1783 | once the receiver is signalled no step touches the operation, so it may be destroyed |
| CancelRace.CanAlwaysFinish | ucx_context/ucx_am_context/ucx_am_context.hpp:1547-1791 | from every reachable state the receiver can still be signalled within 17 steps, if the environment grants slots and lookups |
| CancelRace.RunKeepsInv | ucx_context/ucx_am_context/ucx_am_context.hpp:741-763 | the reference count is the number of parties that still hold one, and the stop callback lives from registration to the last party's exit |
| TimerRace.CompletesExactlyOnce | ucx_context/ucx_am_context/ucx_am_context.hpp:2749-2854 | in every interleaving of the reaping loop with a local or remote stop: at most one signal, and exactly one if and only if the timer was started and is in no queue, no heap and no step under way; the node never in two run queues or enqueued twice, inserted into and removed from the heap at most once and equally often by the time it is signalled |
| TimerRace.NothingRunsAfterSignal | ucx_context/ucx_am_context/ucx_am_context.hpp:2737-2791 | once the receiver is signalled no step touches the operation |
| TimerRace.ClaimIsKept | ucx_context/ucx_am_context/ucx_am_context.hpp:2825-2854 | whoever set its flag first keeps the operation: a stop's claim survives every step |
| TimerRace.ClaimEndsInDone | ucx_context/ucx_am_context/ucx_am_context.hpp:2771-2791 | an operation claimed by a stop is signalled done, in every continuation |
| TimerRace.StopBeforeDecisionEndsInDone | ucx_context/ucx_am_context/ucx_am_context.hpp:2749-2759 | a stop requested before the signal is decided ends in done, even when the timer was claimed first |
| TimerRace.StopBeforeStartNeverArms | ucx_context/ucx_am_context/ucx_am_context.hpp:2793-2802 | a stop requested before the timer went into the heap keeps it out for good |
| TimerRace.LocalStopIsImmediate | ucx_context/ucx_am_context/ucx_am_context.hpp:2824-2841 | a stop on the I/O thread takes the armed timer out of the heap at once, or finds it out already, and leaves it queued to complete with done |
| TimerRace.RemoteStopTakesEffect | ucx_context/ucx_am_context/ucx_am_context.hpp:2843-2854 | a stop on another thread reaches a timer that still waits: three of its steps claim it and hand it to the I/O thread to be removed and completed with done |
| TimerRace.ValueOnlyWhenDue | ucx_context/ucx_am_context/ucx_am_context.cpp:510-538 | a timer completes with a value only after a step took it out of the heap because it was due |
| TimerRace.CanAlwaysFinish | ucx_context/ucx_am_context/ucx_am_context.cpp:510-538 | from every reachable state of a started timer the receiver can still be signalled within 80 steps |
| TimerRace.RunKeepsInv | ucx_context/ucx_am_context/ucx_am_context.cpp:513-537 | where the node is and which flags are set determine who owns its completion |
| RequestLifecycle.RunKeepsLists | ucx_context/ucx_connection.cpp:629-644 | over every run, all_requests_ of a connection is exactly the set of requests in progress whose conn is that connection, each once |
| RequestLifecycle.RunOwes | ucx_context/ucx_connection.cpp:540-557 | over every run, a callback was invoked once for each time it was posted, except for the requests in progress that still owe it |
| RequestLifecycle.CallbackRunsOnce | ucx_context/ucx_connection.cpp:669-703 | a callback posted once is invoked at most once, and exactly once if and only if no request in progress owes it any more |
| RequestLifecycle.LateCompletionIsSilent | ucx_context/ucx_connection.cpp:285-298 | however much later UCX completes a force-cleaned request, that invokes nothing and touches no list |
| RequestLifecycle.EveryAnswerIsExplained | ucx_context/ucx_connection.cpp:540-557 | every status a callback is given comes from a step of the run: its own posting, the completion of its own request with that status, or the clean-up of its connection |
| RequestLifecycle.DoneIffIdle | ucx_context/ucx_connection.cpp:307-327 | a connection may be destroyed exactly when no request in progress belongs to it and UCX is not still closing its endpoint |
| RequestLifecycle.EndpointsFollowTheRun | ucx_context/ucx_connection.cpp:646-667 | over every run an endpoint is open from the opening to the first close, and its close request is kept until a poll finds UCX through with it and nothing outstanding |
| RequestLifecycle.WithoutKeepsOrder | ucx_context/ucx_connection.cpp:629-644 | unlinking takes one request out of the list and leaves the others in posting order |
| RequestLifecycle.CleanedCancelsInOrder | ucx_context/ucx_connection.cpp:285-298 | a clean-up answers the callbacks of all requests left with canceled, in posting order |
| RequestLifecycle.TeardownAnswersEveryone | ucx_context/ucx_connection.cpp:276-305 | whatever UCX completes meanwhile, a teardown leaves the connection with an empty list and no endpoint, takes nothing else from other lists, and answers each callback once per request that stopped owing it, so no request of the connection owes anything |
| RequestLifecycle.TeardownSparesOthers | ucx_context/ucx_connection.cpp:276-305 | a teardown adds nothing to any list, so an idle connection stays idle, and changes no other endpoint or close request |
| RequestLifecycle.Worker.RequestCompleted | ucx_context/ucx_connection.cpp:633-644 | unlinks that request from its connection's list and no other |
| RequestLifecycle.Worker.ProcessRequest | ucx_context/ucx_connection.cpp:669-703 | answers at once for a null, failed or finished posting and returns that status; links a request in progress at the end of the list, with its callback and connection, and returns it |
| RequestLifecycle.Worker.SendAmData | ucx_context/ucx_connection.cpp:359-378 | without an endpoint the callback is answered with canceled; otherwise as the posting's result says |
| RequestLifecycle.Worker.CommonRequestCallback | ucx_context/ucx_connection.cpp:540-557 | answers the callback if it is still there, unlinks the request if it still has a connection, and hands it back |
| RequestLifecycle.Worker.CancelAll | ucx_context/ucx_connection.cpp:508-521 | over the list as it was, exactly the requests UCX completes inside the call are completed, in list order and with the statuses UCX gives |
| RequestLifecycle.Worker.ForceCleanUp | ucx_context/ucx_connection.cpp:285-298 | the loop unlinks and answers every request left and detaches it from its connection |
| RequestLifecycle.Worker.EpClose | ucx_context/ucx_connection.cpp:646-667 | shuts the endpoint once, and keeps the close request if UCX is still at it |
| RequestLifecycle.Worker.DisconnectDirect | ucx_context/ucx_connection.cpp:276-305 | cancels everything, lets UCX complete what it does in exactly the rounds until nothing is outstanding, at most 100, cleans up exactly what is left and closes the endpoint: the list ends empty and the endpoint shut |
| RequestLifecycle.Worker.DisconnectProgress | ucx_context/ucx_connection.cpp:307-327 | true exactly when nothing is outstanding and no close is in progress; then a finished close request is given back |
| ConnectionManager.RunConserves | ucx_context/ucx_connection_manager.cpp:67-214 | over every run, a connection is in as many places as it was brought in times: one added once is in exactly one of active, inactive, failed, disconnecting, handed out, destroyed, orphaned |
| ConnectionManager.LifeIsFollowed | ucx_context/ucx_connection_manager.cpp:50-214 | a connection with an id of its own is at all times where its own life has taken it, whatever happens to the others: active, inactive, failed, disconnecting, in the handler's hands, or destroyed; brought in once, nowhere else |
| ConnectionManager.MoveFillsItsTarget | ucx_context/ucx_connection_manager.cpp:111-129 | a move fills the queue it names, at its end, with the connection the id names, and takes the id out of the map it names; nothing else changes |
| ConnectionManager.QueuesGrowAtTheEnd | ucx_context/ucx_connection_manager.cpp:60 | every other operation than a sweep or a hand-out leaves both queues as they are or longer at the end |
| ConnectionManager.OrderIsById | ucx_context/ucx_connection_manager.cpp:177-185 | moving all lists each connection at the position given by the number of smaller ids |
| ConnectionManager.OrphansExactlyWhenReused | ucx_context/ucx_connection_manager.cpp:67-109 | a run orphans no connection if and only if no step gives an id away that the map still holds |
| ConnectionManager.ReusedIdOrphans | ucx_context/ucx_connection_manager.cpp:80-82 | two additions under one id leave the first connection orphaned |
| ConnectionManager.ReusedInactiveIdOrphans | ucx_context/ucx_connection_manager.cpp:99-109 | the second deactivation of one id leaves the first connection orphaned |
| ConnectionManager.LeaksExactlyWhenAllMoved | ucx_context/ucx_connection_manager.cpp:177-185 | a run leaks no slot if and only if it never moves all connections while some are active |
| ConnectionManager.LeakedSlotsStayLeaked | ucx_context/ucx_connection_manager.cpp:67-78 | no continuation of a run has fewer leaked slots |
| ConnectionManager.MoveAllLeaks | ucx_context/ucx_connection_manager.cpp:177-185 | adding one connection and moving all leaks one slot |
| ConnectionManager.SlotsArePartitioned | ucx_context/ucx_connection_manager.hpp:96-106 | every slot is exactly one of: named by the active map, named by the inactive map, free, leaked, or holding an orphan |
| ConnectionManager.FreshIdsAreNotReused | ucx_context/ucx_connection_manager.cpp:67-109 | if every addition uses a fresh id no step ever reuses one, and no id is both active and inactive |
| ConnectionManager.SweepIsExact | ucx_context/ucx_connection_manager.cpp:187-214 | a sweep destroys exactly the queued connections that are done |
| ConnectionManager.SweepKeepsOrder | ucx_context/ucx_connection_manager.cpp:187-214 | a sweep keeps the others in their order |
| ConnectionManager.FinishedIff | ucx_context/ucx_connection_manager.cpp:187-214 | a queued connection counts as done exactly when no request in progress belongs to it and UCX is not still closing its endpoint |
| ConnectionManager.DispatchMovesAll | ucx_context/ucx_am_context/ucx_am_context.hpp:3176-3200 | handling the errors moves every failed connection, in order, to the end of the disconnecting queue and keeps none in hand |
| ConnectionManager.DispatchAddsReplacements | ucx_context/ucx_am_context/ucx_am_context.hpp:3186-3192 | after handling the errors the id of each replacement names the new connection, unless a later one took the same id |
| ConnectionManager.DispatchKeepsOthers | ucx_context/ucx_am_context/ucx_am_context.hpp:3176-3200 | every id no replacement takes names what it named before |
| ConnectionManager.ConnectionManager.constructor | ucx_context/ucx_connection_manager.hpp:96-106 | starts as the empty registry |
| ConnectionManager.ConnectionManager.AddConnection | ucx_context/ucx_connection_manager.cpp:67-83 | the plain map gains the connection in a free or new slot, what the id named before stays in its slot as an orphan, and slots stay injective, occupied and disjoint from a duplicate-free free list of empty slots |
| ConnectionManager.ConnectionManager.RemoveConnection | ucx_context/ucx_connection_manager.cpp:85-97 | destroys the active connection of that id, if any, and frees its slot |
| ConnectionManager.ConnectionManager.RemoveConnectionToInactiveMap | ucx_context/ucx_connection_manager.cpp:99-109 | moves the id from the active to the inactive plain map, in the same slot; what the id named there before stays in its slot as an orphan |
| ConnectionManager.ConnectionManager.TakeActive | ucx_context/ucx_connection_manager.cpp:50-65 | takes exactly the named active connection out of its slot and frees the slot |
| ConnectionManager.ConnectionManager.TakeInactive | ucx_context/ucx_connection_manager.cpp:50-65 | the same for the inactive map |
| ConnectionManager.ConnectionManager.RemoveConnectionToContainer | ucx_context/ucx_connection_manager.cpp:50-65 | from either map to the end of either queue, or nothing when the id is not there |
| ConnectionManager.ConnectionManager.IsConnectionValid | ucx_context/ucx_connection_manager.cpp:131-133 | agrees with the plain active map |
| ConnectionManager.ConnectionManager.GetConnection | ucx_context/ucx_connection_manager.cpp:142-149 | agrees with the plain active map, through the slot |
| ConnectionManager.ConnectionManager.RemoveActiveConnectionsToDisconnectingQueue | ucx_context/ucx_connection_manager.cpp:177-185 | moves all active connections, in id order, to the disconnecting queue; exactly their slots become leaked |
| ConnectionManager.ConnectionManager.SweepQueue | ucx_context/ucx_connection_manager.cpp:187-214 | the erase-while-iterating loop removes and destroys exactly the connections that are done, in place |
| ConnectionManager.ConnectionManager.RemoveFailedConnections | ucx_context/ucx_connection_manager.cpp:187-197 | the sweep of the failed queue, with what it does to the connections' close requests |
| ConnectionManager.ConnectionManager.RemoveDisconnectedConnections | ucx_context/ucx_connection_manager.cpp:204-214 | the sweep of the disconnecting queue |
| ConnectionManager.ConnectionManager.TakeFailed | ucx_context/ucx_am_context/ucx_am_context.hpp:3177-3178 | the handler takes the first failed connection |
| ConnectionManager.ConnectionManager.DispatchFirst | ucx_context/ucx_am_context/ucx_am_context.hpp:3177-3198 | one round takes the first failed connection, adds its replacement if there is one, and queues it as disconnecting |
| ConnectionManager.ConnectionManager.AddConnectionToDisconnectingQueue | ucx_context/ucx_connection_manager.cpp:199-202 | any connection joins the end of the disconnecting queue; one the error handler held is no longer in its hands |
| ConnectionManager.ConnectionManager.DispatchConnectionErrors | ucx_context/ucx_am_context/ucx_am_context.hpp:3176-3200 | the handler's loop, with the replacements it adds, refines the registry's dispatch, and tears every failed connection down: empty list, no endpoint, whatever UCX does meanwhile |
| ConnectionManager.TearDown | ucx_context/ucx_am_context/ucx_am_context.hpp:3196-3199 | tearing the next connection down keeps the earlier ones down and the later ones as they were |
| Serializer.FitsExactly | rpc_core/utils/cista_serialize_helper.hpp:43-111 | for every adaptive sequence of appends and patches, the buffer pass succeeds if and only if the buffer has at least the counted size, and then returns the same offsets |
| Serializer.TwoPassNeverOverflows | rpc_core/utils/cista_serialize_helper.hpp:43-134 | a writer of exactly the counted size never fails a check, at any point, even if the bytes depend on what was written |
| Serializer.SizeIsWrittenSizeIff | rpc_core/utils/cista_serialize_helper.hpp:73-122 | the counted size is the size reported as written if and only if no patch ends beyond the last block |
| Serializer.FailureStopsThere | rpc_core/utils/cista_serialize_helper.hpp:85-111 | a pass that fails stops at the first operation that does not fit: the buffer is as the operations before left it, the position past the block that was not written |
| Serializer.LastWriteWins | rpc_core/utils/cista_serialize_helper.hpp:85-111 | at the end each byte is the one the last operation to cover it wrote |
| Serializer.UncoveredIsUntouched | rpc_core/utils/cista_serialize_helper.hpp:85-111 | a byte no operation covered, such as padding, is the buffer's own |
| Serializer.BlockEndsAtPos | rpc_core/utils/cista_serialize_helper.hpp:85-102 | an appended block is aligned, inside the buffer, and ends where the next operation starts |
| Serializer.LaterBlockStartsAfter | rpc_core/utils/cista_serialize_helper.hpp:85-102 | no two appended blocks overlap |
| Serializer.NextBlockFollows | rpc_core/utils/cista_serialize_helper.hpp:85-102 | between a block and the next one there is only the padding the next one needs, and the first block starts at zero |
| Serializer.BlockIsIntact | rpc_core/utils/cista_serialize_helper.hpp:85-111 | an appended block still holds its bytes at the end, wherever no later patch covers them |
| Serializer.StartIsAligned | rpc_core/utils/cista_serialize_helper.hpp:48-54 | padding reaches a multiple of the alignment and is shorter than the alignment; there is none for an alignment of at most 1 |
| Serializer.CistaSizeCalculator.Write | rpc_core/utils/cista_serialize_helper.hpp:45-61 | returns the aligned offset and counts the block |
| Serializer.CistaSizeCalculator.WritePatch | rpc_core/utils/cista_serialize_helper.hpp:63-68 | counts the patch's end and does not move the position |
| Serializer.FixedBufferWriter.Copy | rpc_core/utils/cista_serialize_helper.hpp:100 | replaces exactly that range of the buffer |
| Serializer.FixedBufferWriter.Write | rpc_core/utils/cista_serialize_helper.hpp:85-102 | places the block at the aligned offset, or fails the check with the position already moved and the buffer untouched |
| Serializer.FixedBufferWriter.WritePatch | rpc_core/utils/cista_serialize_helper.hpp:104-111 | overwrites exactly that range, or fails the check |
| Serializer.GetSerializedSize | rpc_core/utils/cista_serialize_helper.hpp:129-134 | the size of the counting pass |
| Serializer.Serialize | axon/src/axon_worker.cpp:616-621 | count, allocate, write: the buffer pass runs to its end with the planned offsets and leaves what the client wrote |
| BufferOwnership.RunAccounts | ucx_context/ucx_context_data.hpp:109-167 | over every run of constructions, moves, move-assignments, splits and destructions, a block was released, by one releaser or by any, once for each time that duty was taken on, except for the handles that still have it |
| BufferOwnership.ReleasedOnceByItsReleaser | ucx_context/ucx_context_data.hpp:123-167 | a block claimed once in all is released at most once, by any releaser; when all handles are gone, exactly once if and only if it was claimed exactly once; a releaser it was not claimed with is never used on it |
| BufferOwnership.BlockIsReleasedAsConstructed | ucx_context/ucx_context_data.hpp:89-167 | whatever moves, splits and assignments happen in between, a block is only released through the function its buffers were constructed with, or else deallocated with their memory resource, type and size; constructed as owned once and not moved with a declared ownership, exactly once by the time all handles are gone; never as owned, never |
| BufferOwnership.MovesHandOver | ucx_context/ucx_context_data.hpp:109-167 | a move, an assignment or an accepted split hands the whole handle over, leaves nothing behind and touches no other handle |
| BufferOwnership.NoHandleOutlivesItsBlock | ucx_context/ucx_context_data.hpp:109-167 | over every run the releases of a block and the handles that refer to it are together at most the constructions around it: constructed once, it has at most one handle, and none once released |
| BufferOwnership.DeclaredOwnerReleasesTwice | ucx_context/ucx_context_data.hpp:109-118 | an owner and a handle declared an owner of a view of the same block both release it |
| BufferOwnership.ViewsTile | ucx_context/ucx_context_data.hpp:653-659 | the views have the sizes asked for and tile a prefix of the block, in order |
| BufferOwnership.ViewsAreDisjoint | ucx_context/ucx_context_data.hpp:653-659 | no two views overlap |
| BufferOwnership.InBoundsIffSumFits | ucx_context/ucx_context_data.hpp:648-659 | the views lie inside the block if and only if the true sum of the sizes fits |
| BufferOwnership.AcceptedSplitIsSafeIff | ucx_context/ucx_context_data.hpp:648-651 | an accepted split stays inside the block if and only if the sizes add up without wrapping |
| BufferOwnership.WrappingSplitEscapes | ucx_context/ucx_context_data.hpp:648-651 | sizes that pass the check with a view outside a 16-byte block |
| BufferOwnership.UcxBuffer.Allocate | ucx_context/ucx_context_data.hpp:60-74 | allocates nothing for size zero |
| BufferOwnership.UcxBuffer.Move | ucx_context/ucx_context_data.hpp:138-147 | the new handle is the old one, which keeps nothing to release |
| BufferOwnership.UcxBuffer.MoveAs | ucx_context/ucx_context_data.hpp:109-118 | the same with ownership declared by the caller |
| BufferOwnership.UcxBuffer.Assign | ucx_context/ucx_context_data.hpp:149-167 | releases what the target owned and then moves; assigning to itself changes nothing |
| BufferOwnership.UcxBuffer.Destroy | ucx_context/ucx_context_data.hpp:123-133 | releases an owned block through its release function, or without one through its memory resource, type and size, and releases nothing otherwise |
| BufferOwnership.UcxBuffer.ToBufferVec | ucx_context/ucx_context_data.hpp:646-670 | views on one backing buffer that now owns what the split buffer owned; when the sizes do not fit the buffer keeps its block |
| BufferOwnership.UcxBufferVec.Destroy | ucx_context/ucx_context_data.hpp:396-412 | destroying a split releases the backing buffer's block once and no view |
| BufferOwnership.AddUp | ucx_context/ucx_context_data.hpp:648 | the loop gives the sum modulo 2^64 |
| BufferOwnership.Chop | ucx_context/ucx_context_data.hpp:653-659 | the loop gives the views at the running sums |
| RpcArguments.RoundTrip | rpc_core/rpc_dispatcher.hpp:115-215 | whenever Validate accepts a packed argument list and the call has the payload it needs, the callee's j-th parameter is the caller's own value, its payload or the serialized argument at the parameter's index, if and only if it is no payload, or one of the caller's kind that nobody took by value before it is read; payload, header and builder consume no index |
| RpcArguments.ValidatedCallDeliversIff | rpc_core/rpc_dispatcher.hpp:997-1015 | what Validate accepts reaches the callee whole if and only if every payload parameter is of the kind the caller gave and reads it before anyone took it by value |
| RpcArguments.SuitableCallIsDelivered | rpc_core/rpc_dispatcher.hpp:997-1015 | a call whose arguments suit the parameters one by one, with at most one payload, is accepted and delivered whole |
| RpcArguments.SuitableCallValidates | rpc_core/rpc_request_builder.hpp:219-234 | arguments that suit the parameters one by one are packed with exactly the tags the function is registered with |
| RpcArguments.CallSucceedsIff | rpc_core/rpc_dispatcher.hpp:997-1015 | a call goes through if and only if a function that reads a payload is given one and the parameters begin with its tags; a missing payload is reported first |
| RpcArguments.WrongKindIsMisread | rpc_core/rpc_request_builder.hpp:219-234 | a vector of buffers given to a function of one buffer passes Validate and is read as what it is not |
| RpcArguments.SecondTakerGetsNothing | rpc_core/rpc_dispatcher.hpp:194-198 | of two parameters that take the payload by value the second one gets an emptied buffer |
| RpcArguments.EarlierReferenceSeesNothing | rpc_core/rpc_dispatcher.hpp:194-215 | a reference parameter sees an emptied buffer even before one that takes the payload by value |
| RpcArguments.ContextIsEmptiedIff | rpc_core/rpc_dispatcher.hpp:194-198 | the context keeps its kind, and its content is gone after n parameters if and only if one of them took it by value |
| RpcArguments.PrepareRequest | rpc_core/rpc_request_builder.hpp:134-170 | the header carries the packed arguments and the one payload among them, with its kind, travels beside it |
| RpcArguments.PayloadIsUnique | rpc_core/rpc_traits.hpp:283-291 | with at most one payload among the arguments, the extracted payload is that one |
| RpcArguments.PackedValidatesIff | rpc_core/rpc_request_builder.hpp:219-234 | Validate against the registered types accepts the packed list if and only if the serialized arguments match the function's parameters |
| RpcArguments.PackedAgrees | rpc_core/rpc_request_builder.hpp:37-95 | packing always produces values that agree with their tags |
| RpcArguments.ExtractSucceedsIff | rpc_core/rpc_dispatcher.hpp:115-215 | on any parameter list, extraction succeeds if and only if its first k tags are the k registered types and their values agree with them; further parameters are ignored |
| RpcArguments.ValidatedCanBeExtracted | rpc_core/rpc_request_builder.hpp:219-234 | everything Validate accepts, with values that agree with their tags, can be extracted |
| RpcArguments.EachFormalGetsItsParameter | rpc_core/rpc_dispatcher.hpp:207-215 | the running index gives every formal its own parameter, and every payload formal the context as the formals before it left it |
| RpcArguments.FirstFailureIsReported | rpc_core/rpc_types.hpp:210-273 | a failed extraction reports the error of the first formal whose parameter cannot be read |
| RpcArguments.AccessSucceedsIff | rpc_core/rpc_types.hpp:210-273 | an accessor succeeds if and only if the index is in range, the tag is the expected one and the value agrees with it, and which error it reports otherwise |
| RpcArguments.IndexCountsTypes | rpc_core/rpc_dispatcher.hpp:800-810 | the running index counts exactly the types that were registered |
| RpcArguments.RpcRequestHeader.PackArg | rpc_core/rpc_request_builder.hpp:37-95 | appends the tagged value, or nothing for a payload or a header |
| RpcArguments.RpcRequestHeader.PackArgs | rpc_core/rpc_request_builder.hpp:97-100 | packs the arguments in order |
| RpcArguments.RpcRequestHeader.ExtractArg | rpc_core/rpc_dispatcher.hpp:115-200 | reads one argument, moves the index past it if it used one, and moves the payload out of the context if it takes it by value |
| RpcArguments.RpcRequestHeader.ExtractArgs | rpc_core/rpc_dispatcher.hpp:207-215 | reads all arguments left to right, stopping at the first failure, and leaves the context as they left it |
| RpcArguments.RpcRequestHeader.Invoke | rpc_core/rpc_dispatcher.hpp:997-1015 | refuses a function that reads a payload without a context, does not check the context's type, and shows references what extraction left |
| RpcArguments.Validate | rpc_core/rpc_request_builder.hpp:219-234 | none exactly when the tags are the expected ones; otherwise the count, or else the first index that differs |
| AmDescriptors.KeysAreFreshIff | ucx_context/ucx_am_context/ucx_am_context.hpp:324-328 | over every run the keys are all different if and only if at most 2^64 were issued |
| AmDescriptors.KeysRepeat | ucx_context/ucx_am_context/ucx_am_context.hpp:324-328 | the arrival after 2^64 others is given the key of the first one, which is still taken, and is lost |
| AmDescriptors.RunConserves | ucx_context/ucx_am_context/ucx_am_context.hpp:1553-1597 | over every run a descriptor is in exactly one place per arrival: queued, pending, handed to UCX, released, dropped |
| AmDescriptors.GivenBackAtMostOnce | ucx_context/ucx_am_context/ucx_am_context.cpp:753-782 | a descriptor is handed to UCX or released at most once, and never both |
| AmDescriptors.HandedAndReleasedExactly | ucx_context/ucx_am_context/ucx_am_context.hpp:1553-1640 | over every run a descriptor was handed to UCX exactly as often as it was received into a buffer, and released exactly as often as a stop, a rejection or a cancelled receive found it pending |
| AmDescriptors.HeadersComeInOrder | ucx_context/ucx_am_context/ucx_am_context.hpp:1936-1987 | headers are received in the order of arrival: what is queued is what arrived, less the first ones |
| AmDescriptors.KeysNameTheirDescriptors | ucx_context/ucx_am_context/ucx_am_context.hpp:324-338 | the i-th key issued names the i-th descriptor that was given one, for as long as it is pending |
| AmDescriptors.DropsExactlyWhenLost | ucx_context/ucx_am_context/ucx_am_context.hpp:1582-1597 | a run drops no descriptor if and only if none of its steps is one that loses it |
| AmDescriptors.SettledRunsGiveEverythingBack | ucx_context/ucx_am_context/ucx_am_context.hpp:1715-1719 | when no step loses one and nothing waits, each arrival was given back exactly once |
| AmDescriptors.ReceivingCanLoseDescriptor | ucx_context/ucx_am_context/ucx_am_context.hpp:1582-1664 | runs whose descriptor ends neither handed to UCX nor released: its connection is gone as its buffer is received, or preparing the buffer throws |
| AmDescriptors.HeaderCanLoseDescriptor | ucx_context/ucx_am_context/ucx_am_context.hpp:1936-1987 | runs that lose it as its header is received: its connection is gone, or it carries no data |
| AmDescriptors.AmDescMap.Push | ucx_context/ucx_am_context/ucx_am_context.hpp:324-328 | takes the next key, and does not replace an entry that is already there |
| AmDescriptors.AmDescMap.Pop | ucx_context/ucx_am_context/ucx_am_context.hpp:330-338 | gives the entry out once and forgets it |
| AmDescriptors.AmContext.AmRecvCallback | ucx_context/ucx_am_context/ucx_am_context.cpp:946-958 | a rendezvous message waits at the end of the arrival queue |
| AmDescriptors.AmContext.StartReceiveHeader | ucx_context/ucx_am_context/ucx_am_context.hpp:1936-1987 | the first arrival becomes pending under the next key, which is returned, unless its connection is gone or it has no data; then, or with no arrival, there is no key |
| AmDescriptors.AmContext.StartReceiveBuffer | ucx_context/ucx_am_context/ucx_am_context.hpp:1553-1664 | a cancelled receive releases the descriptor, another one hands it to UCX, and one whose connection is gone does neither |
| AmDescriptors.AmContext.RequestStopLocal | ucx_context/ucx_am_context/ucx_am_context.hpp:1706-1720 | releases the descriptor if it is still pending |
| AmDescriptors.AmContext.ProcessHeader | axon/src/axon_worker.cpp:1254-1287 | a rejected header releases its pending descriptor; a missing one is only reported |

## Left out

- UCX, CUDA, sockets, libunifex and cista internals: foreign code, the environment of the models.
- Memory reclamation in `LockFreeQueue` and its `size()`: node identities are never reused in the model, and the queue serves one thread here.
- Weak memory orderings: interleavings are sequentially consistent, so the relaxed and consume accesses are treated as stronger than written.
- OS timers (`try_submit_timer_io`, `activeTimerCount_`, `currentDueTime_`, the signal handler): only the flag race of the timer operation and the completion entries are modelled.
- Inline completion in the eager receive paths: it runs user continuations while the counter is one low, so the bound of 256 is not claimed inside them.
- Nested submission from a populate step, and interleavings inside `signal_remote_queue`: populate and signal are single steps.
- Cancellation of `send_sender_t`, `recv_sender`, `recv_header_sender`, `accept_sender` and the error-dispatch sender: their stop path is not the symmetric count.
- Liveness of the retries of `recv_buffer_sender_t`: `CancelRace.CanAlwaysFinish` lets the environment grant the lookups.
- Requests as intrusive list nodes with back pointers: `Worker` holds the requests and each connection's list as maps, so aliasing of the list links is not modelled.
- Callbacks that re-enter the connection they are called from, the disconnect callback, and the `disconnect`/established status bookkeeping.
- The new endpoint of a connection the error handler recreates: the registry gains the connection, the worker does not open it.
- The destructor of a connection that a sweep destroys: the sweep records it as destroyed and does not close an endpoint that is still open.
- `ConnectionManager::is_in_disconnecting` and `get_connection_by_slot`: the first compares endpoint addresses, which are null once a connection is disconnected, and neither is used by the context.
- `ConnectionManager::clear`: terminal here; the free list survives it, so adding afterwards is not modelled.
- Serializer.TwoPassNeverOverflows: positions are unbounded, because an object of 2^63 bytes cannot be serialized in memory; the signed offset type is not modelled.
- `UcxBufferVec` built from separate allocations, its moves and `ExtractBuffers`: no ownership claim is made through them.
- BufferOwnership.ViewsTile: offsets are distances from the block's start and do not wrap like machine addresses.
- Enum arguments and `std::vector` parameters other than tensor vectors: they do not compile as callee parameters, so `Formal` has none.
- RpcArguments.AccessSucceedsIff: reading a variant as an alternative it does not hold is taken to fail, which is up to the `get` of the cista library; values that agree with their tags never do it.
- Functions with payload parameters of both types do not compile, and what a callee finds in a context of the other type is undefined: `MisreadActual` only says that it is not the payload.
- Primitive values and tensor descriptions in RPC arguments are opaque values; their conversion between C++ types is not modelled.
- Header memory of rendezvous messages, eager messages and the descriptors left in the arrival queue at shutdown.
- The AxonWorker request storage, the Python layer, logging, metrics, memory-resource registration and error categories: plumbing or easy members.
