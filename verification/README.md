# SolidFrame, modelled in Dafny

SolidFrame is a C++ framework for asynchronous servers: a `Manager` hands out object ids and lets any
thread visit an object, a `Reactor` runs the objects' callbacks on one thread, a shared store hands out
shared and exclusive pointers, and a reentrant binary serializer turns object trees into bytes and back.
This project models the state those parts keep and proves what they promise about it.

Concurrent protocols (reactor, object tables, object ids, shared store, work pool) are state machines:
a `Step` for every critical section or atomic access, `Enabled`, `Apply`, and theorems over every
interleaving from the initial state. What a run did (events raised and delivered, functions posted and run,
chunks registered, ids returned, waiters queued and served, jobs pushed and executed) is computed from the
run's own steps, and the theorems relate the state reached to that. Locks and atomics are sequentially
consistent steps. Sequential
mutable structures (timers, store items, queue, stack, inner list, type id map, the serializer's run
loops, the byte and bit loops) are classes and methods proved against functions on values, and the
promises are lemmas about those functions.

| part | files |
|---|---|
| optional values and facts about sequences | `Common` |
| reactor: run ids, event loop, stopping | `RunIds`, `Reactor`, `ReactorQueues`, `ReactorInv`, `ReactorStop`, `ReactorSteps`, `ReactorTraces`, `ReactorRuns`, `ReactorProgress`, `ReactorDelivery`, `ReactorPosts`, `ReactorSignals` |
| the manager's two table copies | `TableCopies`, `TableCopiesRuns`, `TableContents` |
| object slots and ids, walks over a service | `Chunks`, `ObjectIds`, `ObjectIdsRuns`, `ObjectVisits`, `ServiceWalks` |
| timers | `TimerSpec`, `TimerFacts`, `TimerAlarms`, `Timers` |
| shared store | `SharedSpec`, `SharedRuns`, `SharedServing`, `SharedGrants`, `SharedItems` |
| serializer and deserializer | `SerialTree`, `SerialFormat`, `Serializer`, `SerializerRuns`, `Deserializer`, `DeserializerRuns`, `DeserializerTypes`, `SerialRoundTrip`, `SerialMachines` |
| cross-width integers and check bits | `BitWords`, `CheckedWords`, `CrossCodec`, `CrossBuffers` |
| bitsets | `BitPacking`, `Bitsets` |
| type ids | `TypeIds` |
| chunked queue and stack | `ChunkedLists`, `ChunkedQueue`, `ChunkedStack` |
| inner list | `InnerLists` |
| work pool | `WorkPool`, `WorkPoolRuns`, `WorkPoolTraces` |

## What the code does not keep

Some expectations stated in the code or its comments do not hold in every run. The model follows the
code; each case has a lemma with a concrete run or input, and where the property can be saved the exact
condition is proved.

- The note above `postObjectStop` and the one above `disableVisits` promise that every event accepted for
  an object is delivered before it is stopped. That holds exactly when the stop is posted from a callback
  run by `doCompleteExec`, or no event of the object is in the raise vector being filled at that moment
  (`StopDeliversEverything`); a stop posted from a timer callback can overtake an event
  (`TimerStopLosesEvent`).
- Readers of the object table are meant to count themselves on a copy without a lock unless a writer wants it.
  The writer's wish is never withdrawn and comes before a copy's first chunk, so in no run is a reader let in
  without the mutex (`NeverLockFree`).
- A timer cancelled by a callback after the sweep has passed its entry moves an unseen entry behind the
  cursor, or makes a new one land there, so `next()` can be later than a timer (`CancelHidesTimer`,
  `WaitHidesTimer`). `OpHidesExactly` says which operations do that. After a sweep `next()` is no later than
  any timer exactly when, at the return of its last callback, every passed entry is no earlier than the
  time found so far or than an entry still to be seen that is not due (`SweepBoundExactly`); in a run it
  never is later exactly when every sweep meets that (`RunBoundExactly`). It is the exact minimum after every
  sweep whose callbacks leave the passed entries alone (`SweepFindsMinimum`).
- `doTryGetUnique` asserts that nobody waits when it grants; that can fail (`UniquePassesWaitersRun`), exactly
  as `UniquePassesWaiters` says. `doSwitchUniqueToShared` asserts one user. That holds for every unique or
  reinit pointer; for any other use pointer exactly when it is the only one, and for an alive pointer exactly
  when there is one use pointer (`SwitchAssertion`, `SwitchFindsTwoUsers`). `uniqueToShared` called on an
  alive pointer keeps exclusion exactly when no unique or reinit pointer is held (`SwitchThroughAlive`);
  otherwise the next shared call is granted beside it (`AliveSwitchAdmitsSharer`).
- A queued waiter of the shared store is looked at only when an entry of the erase vector is worked off. One that
  queues with a shared request on an item nobody holds, without a pending entry and not under a shared lock, is
  never looked at (`StrandedRun`); exactly those requests strand a waiter (`StepAttended`, `AttendedExactly`), and
  every other waiter is served once the pointers before it are dropped (`FirstWaiterServed`). With alive pointers
  held the same request is overlooked until one of them is dropped; apart from those requests, whenever the first
  waiter could be served an entry that does so is pending (`OverlookedExactly`).
- `stop(true)` of a work pool leaves jobs behind exactly when there was a job and no worker in its loop at the
  moment it began to stop, and none was created later (`StopExecutesAll`, `StopWithoutWorkers`).
- `exitWorker` asserts that the worker count is not negative. `start` sets the count to zero, so a worker
  created before it makes the assertion fail (`StrayBreaksCount`, `CreatedBeforeStart`); it holds in every run
  while as many workers are left as were there at the start (`WorkerCountNotNegative`).
- `doRegisterType` goes on when no id can be made, with the id tried last, which is in use, or with a variable
  it never set. Map and vector of types are inverse to each other exactly when for every registration an id
  could be made, or the variable was never set and what it held was not in use (`RunKeeps`, `RegisterKeeps`).
  No id can be made for a protocol id of 2^30 or more (`WideProtocolRun`, `WideProtocolExample`).

## Model

| member | source | states |
|---|---|---|
| RunIds.PopKeeps | solid/frame/src/reactor.cpp:677-687 | taking a run id for a new object keeps every index in exactly one place: free, on its way, or in a slot |
| RunIds.InstallKeeps | solid/frame/src/reactor.cpp:489-551 | installing the first new task in its slot keeps run ids, generations and slot owners consistent |
| RunIds.StopKeeps | solid/frame/src/reactor.cpp:406-416 | stopping an object raises its slot's generation and frees the index without breaking that consistency |
| RunIds.NextUidIsNew | solid/frame/src/reactor.cpp:677-687 | the run id handed out next was never given to another object |
| ReactorSteps.StepKeepsInv | solid/frame/src/reactor.cpp:263-560 | every step of raising, pushing, swapping, installing, queueing, executing, posting and stopping keeps the reactor's invariant |
| ReactorRuns.NewTaskMatchesSlot | solid/frame/src/reactor.cpp:511-551 | in every run the generation asserted for a new object is the one its slot holds, and the slot is free |
| ReactorRuns.QueuedRunsOnItsObject | solid/frame/src/reactor.cpp:454-470 | in every run a queued function that runs does so on the object its run id was given to, never on the slot's next owner |
| ReactorRuns.InstalledBeforeQueued | solid/frame/src/reactor.cpp:489-560 | in every run an object is installed before anything is queued for it |
| ReactorRuns.NothingLostOrReordered | solid/frame/src/reactor.cpp:263-295 | in every run the calls made to a live object, as the run's steps make them, followed by the events outstanding are exactly the events its accepted raises sent, in order |
| ReactorTraces.HistoryIsTrace | solid/frame/src/reactor.cpp:263-295 | in every run the recorded events of an object are those the raise and call steps of the run sent it and called it with |
| ReactorDelivery.EventsAreDelivered | solid/frame/src/reactor.cpp:327-365 | in every run an event accepted for an object has been delivered when two more rounds of the loop have ended, unless the object was stopped |
| ReactorPosts.PostedRunInOrder | solid/frame/src/reactor.cpp:370-382 | in every run the functions run for an object are a prefix of those posted for it, and while it lives those posted are those run and those queued, in order |
| ReactorPosts.PostedFunctionsRun | solid/frame/src/reactor.cpp:454-470 | a function posted for an object that is not stopped has run when two more rounds of the loop have ended |
| ReactorPosts.GoneNeverRuns | solid/frame/src/reactor.cpp:454-470 | nothing posted for an object runs once it is stopped |
| ReactorRuns.NoLostWakeUp | solid/frame/src/reactor.cpp:472-509 | in every run a reactor asleep without a pending signal has both fill vectors empty, no stop request and nothing in the exec queue |
| ReactorSignals.SignalledExactly | solid/frame/src/reactor.cpp:472-509 | in every run the reactor sleeps from going to sleep until it looks again, and has then been signalled exactly if there is a new object, an event or a stop request for it |
| ReactorSignals.StopRequestIsSeen | solid/frame/src/reactor.cpp:297-303 | in every run the reactor finds a stop request when it looks exactly if one was made since it last looked, and does not sleep with one |
| ReactorSignals.HandlersCounted | solid/frame/src/reactor.cpp:589-632 | in every run there is one handler more than were added, and a handler's generation is the number of times it was dropped |
| ReactorSignals.DroppedNeverRuns | solid/frame/src/reactor.cpp:454-470 | after a handler is dropped nothing posted under it runs |
| ReactorSignals.StoppedNeverRuns | solid/frame/src/reactor.cpp:406-416 | in every run, after an object is stopped nothing posted for it runs |
| ReactorRuns.PostedStop | solid/frame/src/object.cpp:54-102 | once a stop is posted no event is accepted any more, and at the stop exactly the events raised minus the late ones were delivered |
| ReactorRuns.StopDeliversEverything | solid/frame/src/reactor.cpp:384-416 | every event raised before visits were disabled is delivered before the stop, exactly when the stop was posted in the exec phase or no own event is in the fill vector |
| ReactorRuns.StopsOnce | solid/frame/src/reactor.cpp:382-416 | the final stop entry always finds a live object that posted its stop: no object is stopped twice |
| ReactorProgress.PostedStopWaits | solid/frame/src/reactor.cpp:382-416 | from its post until it has run, a stop has exactly one entry in the exec queue, and without a post none |
| ReactorProgress.PostedStopRuns | solid/frame/src/reactor.cpp:384-470 | in every run a posted stop has been carried out when the third exec phase after it ends, the second one if posted from a timer callback |
| ReactorProgress.PostedStopCanRun | solid/frame/src/reactor.cpp:384-470 | from every state in which a stop is posted some run carries it out |
| ReactorProgress.NeverStuck | solid/frame/src/reactor.cpp:327-365 | in every run the loop can take a step that brings the end of its round nearer, once the holder of a new object's mutex lets go of it |
| ReactorRuns.TimerStopLosesEvent | solid/frame/src/reactor.cpp:437-452 | a run in which a timer callback posts a stop and an accepted event is never delivered |
| TableCopiesRuns.WriterExcludesReaders | solid/frame/src/manager.cpp:307-340 | in every run of any threads no reader holds the copy being written, and every other copy counts exactly its readers |
| TableCopiesRuns.SlowPathAssertion | solid/frame/src/manager.cpp:312-316 | the count seen on the slow path is never negative, as asserted |
| TableCopiesRuns.ResetLosesNone | solid/frame/src/manager.cpp:336-340 | when the writer resets the count to zero no reader is on that copy |
| TableCopiesRuns.HeldCopyIsStable | solid/frame/src/manager.cpp:307-321 | no step of any thread changes the table a reader holds |
| TableCopiesRuns.OtherCopyIsPrefix | solid/frame/src/manager.cpp:572-594 | outside an update the other copy is a prefix of the current one, and the object count is covered by published chunks |
| TableContents.TableIsRegistered | solid/frame/src/manager.cpp:572-585 | in every run the current copy is a prefix of the chunks the run registered, and all of them while nobody is inside the mutex |
| TableContents.VisitInRange | solid/frame/src/manager.cpp:727-743 | in every run the index a thread asked for is in range in the copy it reads, even a stale one, and the chunk there is the one registered for it |
| TableContents.VisitLetIn | solid/frame/src/manager.cpp:727-743 | in every run, nobody being inside the mutex, a visit begins exactly when its index lies in a registered chunk |
| TableContents.NeverLockFree | solid/frame/src/manager.cpp:307-333 | in no run does a reader count itself on a copy without the mutex |
| TableContents.WriterWaitsForReaders | solid/frame/src/manager.cpp:323-335 | in every run a writer at its exchange goes on exactly when no reader holds the copy |
| TableContents.NeverStuck | solid/frame/src/manager.cpp:307-340 | in every run, unless all threads are idle, one of them can move, and each is at most nine moves from idle |
| ObjectIdsRuns.EachSlotInOnePlace | solid/frame/src/manager.cpp:526-692 | in every run each slot is in exactly one place: registered, on its service's free stack, unused in its chunk, or in the hands of one thread |
| ObjectIdsRuns.RegistrationReturnsNewId | solid/frame/src/manager.cpp:611-649 | a registration returns an id never returned before, and its chunk belongs to its service, as asserted |
| ObjectVisits.VisitFollowsRun | solid/frame/src/manager.cpp:727-743 | in every run a visit by any id reaches what the steps make of it: nothing until a registration returns the id, then that object until it is unregistered or disabled |
| ObjectVisits.VisitReachesItsObject | solid/frame/src/manager.cpp:624-706 | a successful registration returns a new id, and at the end of the run a visit by it reaches the object asked for exactly when no later step unregisters the object or disables its visits, and nothing otherwise |
| ObjectVisits.TakeGetsFreeSlot | solid/frame/src/manager.cpp:544-594 | in every run a registration gets an empty slot of its service that no other thread has, and the table grows, by one chunk, exactly when the service has no free slot |
| ObjectIdsRuns.UnregisterNeverBlocked | solid/frame/src/manager.cpp:652-675 | a registered object can always be unregistered: its chunk names a service and counts it |
| ServiceWalks.WalkChunk | solid/frame/src/manager.cpp:837-845 | the walk that stops after as many objects as the chunk holds visits every visitable object, in order |
| ServiceWalks.ChunkCountsItsObjects | solid/frame/src/manager.cpp:837-845 | in every run the count of each chunk, at which a walk stops, is that of the objects in it |
| ServiceWalks.ChainIsChunks | solid/frame/src/manager.cpp:596-609 | in every run the first and next links of a service go through exactly its chunks, each once, in the order they were allocated |
| ServiceWalks.WalkChain | solid/frame/src/manager.cpp:821-851 | the walk along the chain ends and visits chunk after chunk what each chunk holds |
| ServiceWalks.WalkVisitsAll | solid/frame/src/manager.cpp:821-851 | in every run that is each visible object in the chunks of the service, once |
| ServiceWalks.WalkMissesNone | solid/frame/src/manager.cpp:821-851 | while other threads go on, a walk goes through exactly the chunks the service has when it ends, each once |
| ServiceWalks.VisitedOnce | solid/frame/src/manager.cpp:821-851 | an object registered and visible throughout such a walk is visited exactly once |
| Chunks.ChunkIsQuotient | solid/frame/src/manager.cpp:262-264 | the chunk of an index is the quotient by the chunk size |
| TimerFacts.MovedIndexMatches | solid/frame/src/reactor.cpp:576-580 | the timer of the entry moved by a removal still has the last index, as asserted |
| TimerFacts.ApplyKeeps | solid/frame/timer.hpp:74-100 | arming, cancelling, registering and deactivating keep entries and back-pointers inverse to each other |
| TimerFacts.SweepKeeps | solid/frame/timestore.hpp:64-89 | a sweep keeps that bijection whatever its callbacks arm, cancel or deactivate, and fires only due entries |
| TimerFacts.SweepFindsMinimum | solid/frame/timestore.hpp:64-89 | after a sweep whose callbacks leave the passed entries alone nothing is due, no entry is earlier than the cached time, and one has it if any is left |
| TimerFacts.SweepFiresDue | solid/frame/timestore.hpp:64-89 | if callbacks only wait for later times the sweep fires each due timer exactly once |
| TimerFacts.LaterIsUndisturbed | solid/frame/timestore.hpp:64-89 | callbacks that only wait for later times leave the passed entries alone |
| TimerFacts.RunKeepsBijection | solid/frame/src/reactor.cpp:437-452 | in every run of operations and sweeps entries and store indices stay inverse to each other |
| TimerFacts.OpKeepsPrefix | solid/frame/timestore.hpp:45-54 | an operation of a callback leaves the passed entries as they are exactly when it does not take out one of them |
| TimerFacts.OpHidesExactly | solid/frame/timestore.hpp:45-89 | an operation of a callback leaves an unaccounted entry behind the cursor exactly when it is one of the two hiding kinds, checkable beforehand |
| TimerFacts.SweepKeepsCover | solid/frame/timestore.hpp:64-89 | a sweep in which no operation hides a timer caches a time no later than any remaining entry |
| TimerFacts.SweepBoundExactly | solid/frame/timestore.hpp:64-89 | with any callbacks a sweep caches a time no later than any entry exactly when all entries passed at the last callback's return are accounted for |
| TimerFacts.UndisturbedIsUnhidden | solid/frame/timestore.hpp:64-89 | leaving the passed entries alone is enough to hide nothing |
| TimerFacts.RunKeepsBound | solid/frame/timestore.hpp:35-92 | in every run whose sweeps hide no timer the cached time is no later than any entry |
| TimerFacts.RunBoundExactly | solid/frame/timestore.hpp:35-92 | throughout a run the cached time is no later than any entry exactly when every sweep accounts for what it passed |
| TimerFacts.CancelHidesTimer | solid/frame/timestore.hpp:46-89 | an input on which a callback's cancel leaves the cached time later than a timer |
| TimerFacts.WaitHidesTimer | solid/frame/timestore.hpp:36-89 | an input on which a callback cancels a passed timer and waits anew, and the cached time is later than the new timer |
| TimerFacts.WaitStopsBeforeTimers | solid/frame/src/reactor.cpp:182-204 | the sleep time never reaches past a timer, is zero with a timer due, and ends less than a millisecond before the cached time unless that is over a minute away |
| TimerAlarms.StoreIsAlarms | solid/frame/timestore.hpp:30-43 | the store has one entry for each timer that waits, with its time, and a timer is pending exactly while it waits |
| TimerAlarms.ClearTakesOwn | solid/frame/timestore.hpp:45-54 | cancelling takes exactly the timer's own entry out of the store, and leaves the other timers' flags and times as they are |
| TimerAlarms.OpMeans | solid/frame/timer.hpp:74-100 | every operation changes which timers wait for what as its user means it, however entries and indices move |
| TimerAlarms.ChangeMeans | solid/frame/timestore.hpp:56-62 | giving an entry another time changes the time of its timer and of no other |
| TimerAlarms.SweepMeans | solid/frame/timestore.hpp:64-89 | with any callbacks a sweep fires only timers that are due when they fire, and leaves exactly those its firings and callbacks leave |
| TimerAlarms.SweepConserves | solid/frame/timestore.hpp:64-89 | with callbacks that only register and wait, the entries left and fired are those there were and those the callbacks added |
| TimerAlarms.RunMeans | solid/frame/src/reactor.cpp:437-452 | in every run the timers wait for exactly the times asked for that were neither fired nor cancelled |
| TimerAlarms.CachedIsEarliestAsked | solid/frame/timestore.hpp:35-62 | between sweeps the cached time is the earliest of what it was and the times asked for since |
| TimerAlarms.ArmingKeepsMinimum | solid/frame/timestore.hpp:35-43 | while nothing is cancelled the cached time is exactly that of the earliest entry |
| Timers.TimerReactor.PopEntry | solid/frame/timestore.hpp:45-54 | removal by swapping with the last entry and telling the moved timer its new index |
| Timers.TimerReactor.WaitUntil | solid/frame/timer.hpp:74-100 | a wait succeeds exactly when the timer is registered and not pending, and then its entry is in the store under its index |
| Timers.TimerReactor.Clear | solid/frame/src/reactor.cpp:582-587 | exactly the cleared timer's own entry leaves the store, or none if it has none, and every other timer keeps its flag and its time |
| Timers.TimerReactor.Deactivated | solid/frame/src/reactor.cpp:582-587 | the same for a timer that goes away, which is then not registered |
| Timers.TimerReactor.PopDue | solid/frame/timestore.hpp:64-89 | the sweep loop with callbacks computes the sweep of the specification, fires only alarms that are due when they fire, and leaves exactly those its firings and callbacks leave |
| SharedSpec.DrainTakesPrefix | solid/frame/sharedstore.hpp:670-714 | serving waiters grants a prefix of the queue, in order, and counts each as a user |
| SharedSpec.DrainStops | solid/frame/sharedstore.hpp:670-714 | serving stops only at a waiter that cannot be served, so serving again grants nothing |
| SharedSpec.DrainGrantsCompatible | solid/frame/sharedstore.hpp:670-714 | one round grants one exclusive waiter alone or shared waiters only |
| SharedRuns.CountsAreHeldPointers | solid/frame/sharedstore.hpp:517-595 | in every run the counts of an item are those of its held pointers, and every pointer held carries its current generation |
| SharedRuns.ExclusivePointerIsAlone | solid/frame/sharedstore.hpp:524-551 | in every run a unique or reinit pointer is the only use pointer to its item |
| SharedRuns.WaitersServedInOrder | solid/frame/sharedstore.hpp:562-580 | in every run the waiters granted followed by those queued are those that arrived, in order |
| SharedRuns.SharedAndReinitNeverPass | solid/frame/sharedstore.hpp:524-551 | in every run, while a waiter stays queued no shared or reinit call gets anything, and only waiters that arrived before it are served, in order |
| SharedRuns.ReinitFindsNoPointer | solid/frame/sharedstore.hpp:693-700 | in every run a reinit pointer is granted, at once or from the queue, only when no pointer at all is held |
| SharedRuns.SwitchThroughAlive | solid/frame/sharedstore.hpp:340-362 | switching to shared through an alive pointer keeps the counts and exclusion exactly when no unique or reinit pointer is held |
| SharedRuns.AliveSwitchAdmitsSharer | solid/frame/sharedstore.hpp:340-362 | with a unique or reinit pointer held and no waiter, the next shared call is granted beside it |
| SharedRuns.AliveSwitchBreaksExclusion | solid/frame/sharedstore.hpp:552-561 | a run after which a switch and a shared call put a shared pointer beside a unique one |
| SharedRuns.UniquePassesWaiters | solid/frame/sharedstore.hpp:533-542 | with waiters queued a unique call is granted exactly when nobody uses the item, and the queue stays |
| SharedRuns.UniquePassesWaitersRun | solid/frame/sharedstore.hpp:533-542 | a run that reaches a queued waiter with nobody using the item |
| SharedRuns.SwitchFindsTwoUsers | solid/frame/sharedstore.hpp:552-561 | a run in which a sharer switches, the lock allows it, and there are two users |
| SharedRuns.SwitchAssertion | solid/frame/sharedstore.hpp:552-561 | in every run, for every pointer held, exactly when the asserted count of one user holds |
| SharedServing.StepAttended | solid/frame/sharedstore.hpp:398-422 | a step keeps every waiter behind a held pointer or a pending erase entry exactly when it is not a stranding request |
| SharedServing.AttendedExactly | solid/frame/src/sharedstore.cpp:157-180 | a run does so throughout exactly when it has no stranding request |
| SharedServing.FirstWaiterServed | solid/frame/sharedstore.hpp:670-714 | in every run, with no pointer held, the pending entry serves the first waiter, and there is one exactly when the item is attended |
| SharedServing.StrandedRun | solid/frame/sharedstore.hpp:602-668 | a run that ends with a waiter no entry will ever serve |
| SharedGrants.DrainServes | solid/frame/sharedstore.hpp:670-714 | serving the queue grants exactly the waiters at its head that can have the item together: all leading shared ones if nobody uses it or the lock is shared, one unique one if nobody uses it, one reinit one if nobody has any pointer |
| SharedGrants.CallOutcome | solid/frame/sharedstore.hpp:517-551 | in every run, for a call of each kind, exactly when it gets its pointer at once, told by the pointers held, the lock and the queue, and that it changes nothing else; a call naming another generation changes nothing, and a request not granted becomes the last of the queue |
| SharedGrants.ExecuteOutcome | solid/frame/sharedstore.hpp:602-635 | in every run which waiters an entry of the erase vector serves, told by the pointers held and the lock, and what the item is afterwards |
| SharedGrants.QueueIsFair | solid/frame/sharedstore.hpp:562-580 | in every run the waiters the steps served followed by those queued are those the steps queued, in order |
| SharedGrants.GenerationCountsClears | solid/frame/sharedstore.hpp:491-497 | in every run an item's generation is the number of times it was cleared, with nobody holding a pointer or waiting, in 32 bits |
| SharedGrants.SwitchOutcome | solid/frame/sharedstore.hpp:340-362 | in every run what a switch to shared does to pointers, lock and entries; it takes effect for every unique or reinit pointer, and then an entry is pending that serves all shared requests at the head of the queue |
| SharedGrants.RecycleOutcome | solid/frame/sharedstore.hpp:491-500 | in every run recycling makes an item as new, in its next generation, exactly when nobody has a pointer to it and nobody waits |
| SharedGrants.OverlookedExactly | solid/frame/sharedstore.hpp:398-422 | in every run an entry is pending whenever the first waiter could be served, exactly when no shared request queued up on an item that nobody used with nothing pending |
| SharedItems.SharedItem.TryGetAlive | solid/frame/sharedstore.hpp:517-523 | always granted: the alive count goes up and the state becomes the unique lock, the queue stays |
| SharedItems.SharedItem.TryGetShared | solid/frame/sharedstore.hpp:524-531 | grants exactly when the item is share-locked and nobody waits |
| SharedItems.SharedItem.TryGetUnique | solid/frame/sharedstore.hpp:533-542 | grants exactly when nobody uses the item |
| SharedItems.SharedItem.TryGetReinit | solid/frame/sharedstore.hpp:543-551 | grants exactly when nobody uses the item or keeps it alive and nobody waits |
| SharedItems.SharedItem.PushWaiter | solid/frame/sharedstore.hpp:562-580 | the linked list of waiters gets the new one at its end |
| SharedItems.SharedItem.DecrementUse | solid/frame/sharedstore.hpp:582-595 | the right count goes down, only for the current generation, and the answer says whether the item is free |
| SharedItems.SharedItem.ExecuteErase | solid/frame/sharedstore.hpp:670-714 | the loop over the linked waiters grants the waiters at the head that can have the item together, leaves the others, and keeps the list well formed |
| Serializer.ScheduleAdds | solid/serialization/binary.hpp:1059-1103 | scheduling a value over any stacks puts its encoding before what was still to be written |
| Serializer.StepSound | solid/serialization/binary.hpp:583-700 | every callback keeps the bytes that will have been written, fails only where a sequence is over the limits, and leaves fewer steps |
| SerializerRuns.WritesEncoding | solid/serialization/src/binary.cpp:155-175 | for every tree within the limits and any sequence of buffer sizes the bytes written are the recursive encoding, cut where the buffers end, and at the end both stacks are empty, as asserted |
| SerializerRuns.FailsExactlyOverLimits | solid/serialization/binary.hpp:594-602 | with room for everything a run fails exactly when some sequence in the tree has more elements than the container limit, or too many for a checked size |
| SerializerRuns.ValueGoes | solid/serialization/binary.hpp:626-644 | a value scheduled over any stacks is written whole and both stacks are back at the contents they had |
| Deserializer.StepProgress | solid/serialization/binary.hpp:1662-1826 | every callback leaves fewer steps or waits for input, whatever the bytes are |
| DeserializerRuns.PiecesAreWhole | solid/serialization/src/binary.cpp:821-842 | for every input, cut into any pieces, the result is that of one run over all of it |
| DeserializerRuns.ValueGoes | solid/serialization/binary.hpp:1736-1753 | a target fed the encoding of a value of its type becomes that value, and the run goes on from the stacks it had with what follows |
| DeserializerRuns.LoadsBack | solid/serialization/binary.hpp:1662-1826 | every tree within the limits is loaded back from its encoding, leaving exactly what follows it and both stacks empty |
| DeserializerTypes.LoadedIsSound | solid/serialization/src/binary.cpp:821-842 | for every target and any bytes, cut into any pieces, a run that ends leaves both stacks empty and the end of the input, and the target holds a value of its type, null only where it is a pointer, with no sequence over the container limit |
| SerialRoundTrip.RoundTrip | solid/serialization/binary.hpp:583-700 | what is written over any buffers and cut into any other pieces is loaded back as the same tree, over the real size format |
| SerialFormat.BinaryIsCoherent | solid/serialization/binary.hpp:598-617 | the sizes and words the serializer writes read back as themselves, and no size is taken for the null marker |
| SerialMachines.BinarySerializer.Schedule | solid/serialization/binary.hpp:1059-1103 | scheduling puts the value's encoding in front |
| SerialMachines.BinarySerializer.Run | solid/serialization/src/binary.cpp:155-175 | the loop terminates and computes the run; it writes what was scheduled, leaves the rest to the next buffer, empties the stacks when done, and fails only over the limits |
| SerialMachines.BinaryDeserializer.Run | solid/serialization/src/binary.cpp:821-842 | the run loop terminates on any bytes, computes the run of the specification, and empties both stacks when it is done |
| BitWords.BitCount64IsOnes | solid/utility/src/utility.cpp:72-82 | the bytewise count of a 64-bit word is its number of ones |
| BitWords.BitCount16IsOnes | solid/utility/src/utility.cpp:68-70 | the bytewise count of a 16-bit word is its number of ones |
| BitWords.SmearFillsBelow | solid/utility/common.hpp:114-146 | after the shift-and-or steps exactly the bits below the highest one are set, at any width |
| BitWords.LeadingZerosIs | solid/utility/common.hpp:114-146 | the zeros counted and the significant bits make up the word |
| BitWords.LeadingZerosCounted | solid/utility/common.hpp:114-146 | the zeros are what the bytewise count finds in the complement of the smeared word, for every value and width, the bits being those of the value |
| BitWords.BitCountIsLeast | solid/utility/algorithm.hpp:114-155 | the bit count is the least n with the value below 2 to the n |
| BitWords.ByteCountIsLeast | solid/utility/algorithm.hpp:122-163 | the byte count is the least n with the value below 256 to the n |
| CheckedWords.CheckUndoesCompute | solid/utility/algorithm.hpp:20-108 | checking a word with check bits gives back the value, at all four widths |
| CheckedWords.ComputeAccepts | solid/utility/algorithm.hpp:20-98 | a value is refused exactly when it would not fit in the word together with its check bits |
| CheckedWords.CheckBitsCounted | solid/utility/algorithm.hpp:20-98 | what is put into the check bits is what the bytewise count finds in the value at the width of the word |
| CheckedWords.CheckedBitsCounted | solid/utility/algorithm.hpp:29-108 | a word passes the check exactly when its check bits are what the bytewise count finds in the rest |
| CheckedWords.OnlyComputedPass | solid/utility/algorithm.hpp:20-108 | only words made by adding the check bits pass the check |
| CheckedWords.FlipIsDetected | solid/utility/algorithm.hpp:29-36 | any change of a single bit, which adds or takes its weight, makes the check of a checked word fail |
| CheckedWords.NeverAllOnes | solid/serialization/binary.hpp:599-617 | a checked size is never the all-ones null marker |
| CrossCodec.LoadUndoesStore | solid/serialization/src/binarybasic.cpp:18-358 | loading at any width undoes storing at any width exactly when the value fits, uses exactly the stored bytes, and is refused otherwise |
| CrossCodec.SizesAgree | solid/serialization/binarybasic.hpp:108-131 | the size announced by the first byte is the size computed from the value and the number of bytes stored |
| CrossCodec.SameCount | solid/utility/algorithm.hpp:122-163 | the number of bytes does not depend on the width a value is stored from |
| CrossCodec.StoreIsShortest | solid/serialization/src/binarybasic.cpp:18-196 | no fewer bytes can hold the value |
| CrossBuffers.StoreAt | solid/serialization/src/binarybasic.cpp:99-196 | the bytes written into the buffer are the stored form, and nothing else changes |
| CrossBuffers.LoadAt | solid/serialization/src/binarybasic.cpp:287-358 | the value and length read from the buffer, or the refusal, are those of the specification |
| BitPacking.UnpackUndoesPack | solid/serialization/binary.hpp:1616-1628 | the packed bytes hold exactly the bits, bit by bit |
| BitPacking.PiecesArePacked | solid/serialization/binary.hpp:544-576 | over any sequence of buffer sizes a bitset gives the bytes of one buffer, cut where the buffers end |
| BitPacking.PiecesAreLoaded | solid/serialization/binary.hpp:1603-1638 | however the bytes are cut the same bits are loaded, suspensions falling between bytes, and other bits stay |
| BitPacking.BitsRoundTrip | solid/serialization/binary.hpp:544-576 | stored over any buffers and loaded under any other split a bitset comes back |
| Bitsets.StoreBits | solid/serialization/binary.hpp:544-576 | the bit loop fills the buffer with exactly what one buffer takes and stops at a byte boundary |
| Bitsets.LoadBits | solid/serialization/binary.hpp:1603-1638 | the bit loop sets exactly the bits the buffer holds, keeps the others, and counts the bytes used |
| TypeIds.SplitUndoesJoin | solid/serialization/src/typeidmap.cpp:55-76 | splitting undoes every accepted joining of protocol id and message id |
| TypeIds.JoinIsInjective | solid/serialization/src/typeidmap.cpp:55-69 | different pairs never make the same id |
| TypeIds.JoinAccepts | solid/serialization/src/typeidmap.cpp:55-69 | exactly the pairs that fit in 64 bits are accepted |
| TypeIds.FirstFree | solid/serialization/src/typeidmap.cpp:98-109 | the search terminates with the first unused id, or where no id can be made with the id tried last |
| TypeIds.TypeIdMap.Allocate | solid/serialization/src/typeidmap.cpp:88-110 | the protocol's next message id moves past what was tried, and the outcome is unused exactly when an id could be made, or the variable never set held an unused value |
| TypeIds.TypeIdMap.Register | solid/serialization/typeidmap.hpp:226-253 | a registration appends one type under the joined id, is refused exactly for an id in use, and leaves map and vector inverse exactly when they were and the call is safe |
| TypeIds.AppendKeeps | solid/serialization/typeidmap.hpp:236-246 | appending under an id leaves map and vector inverse exactly when they were and the id is new |
| TypeIds.AllocatesNew | solid/serialization/src/typeidmap.cpp:98-109 | an unused id comes out exactly when one can be made of some message from the protocol's next on, or the variable was never set and held an unused value |
| TypeIds.RegisterKeeps | solid/serialization/typeidmap.hpp:226-253 | whether a registration keeps map and vector inverse, decided before the call |
| TypeIds.RunKeeps | solid/serialization/typeidmap.hpp:226-253 | after any registrations map and vector are inverse exactly when each of them was safe |
| TypeIds.RoomIsLeft | solid/serialization/src/typeidmap.cpp:98-109 | a protocol id below 2^30 gets an id while fewer than 2^32 message ids were gone through |
| TypeIds.WideProtocolRefused | solid/serialization/src/typeidmap.cpp:55-69 | no id is made of a protocol id of 2^30 or more, with any message id |
| TypeIds.WideProtocolRun | solid/serialization/typeidmap.hpp:227-246 | two registrations for such protocol ids leave map and vector apart exactly when the variable held 0 or the same value twice |
| TypeIds.WideProtocolExample | solid/serialization/typeidmap.hpp:227-246 | a run that does so: protocol 2^30 twice |
| ChunkedQueue.PushKeeps | solid/utility/queue.hpp:82-140 | pushing appends to the list the nodes hold, for any node size from 2 on, and keeps every node in exactly one chain |
| ChunkedQueue.PopKeeps | solid/utility/queue.hpp:105-155 | popping takes the first element off the list, a used-up node goes to the cache, and with the last node nothing is left, as asserted |
| ChunkedQueue.Undisturbed | solid/utility/queue.hpp:82-140 | pushing moves no element and allocates only when the cache is empty |
| ChunkedQueue.Queue.Add | solid/utility/queue.hpp:82-96 | the contents get the element at their end, other elements stay in their slots |
| ChunkedQueue.Queue.Front | solid/utility/queue.hpp:111-116 | the front is the oldest element |
| ChunkedQueue.Queue.Remove | solid/utility/queue.hpp:105-110 | the contents lose their first element and no node is lost |
| ChunkedStack.PushKeeps | solid/utility/stack.hpp:69-104 | pushing appends to the list the nodes hold, for any node size from 2 on, and keeps every node in exactly one chain |
| ChunkedStack.PopKeeps | solid/utility/stack.hpp:87-117 | popping takes the last element off the list, a used-up node goes to the cache, and with the last node nothing is left, as asserted |
| ChunkedStack.Undisturbed | solid/utility/stack.hpp:69-104 | pushing moves no element and allocates only when the cache is empty |
| ChunkedStack.Stack.Add | solid/utility/stack.hpp:69-83 | the contents get the element at their end, other elements stay in their slots |
| ChunkedStack.Stack.Top | solid/utility/stack.hpp:85-86 | the top is the newest element |
| ChunkedStack.Stack.Remove | solid/utility/stack.hpp:87-91 | the contents lose their last element and no node is lost |
| InnerLists.PushBackKeeps | solid/utility/innerlist.hpp:80-94 | linking an index at the back is prepending it to the sequence of members |
| InnerLists.PushFrontKeeps | solid/utility/innerlist.hpp:96-110 | linking an index at the front is appending it to the sequence of members |
| InnerLists.EraseKeeps | solid/utility/innerlist.hpp:136-153 | unlinking a member removes exactly it from the sequence and clears its links |
| InnerLists.ContainsIsExact | solid/utility/innerlist.hpp:223-225 | the membership test is exact for every index of the vector |
| InnerLists.InnerList.PushBack | solid/utility/innerlist.hpp:80-94 | the member sequence gets the index in front, and no other link slot of the vector changes |
| InnerLists.InnerList.PushFront | solid/utility/innerlist.hpp:96-110 | the member sequence gets the index at its end, and no other link slot changes |
| InnerLists.InnerList.Erase | solid/utility/innerlist.hpp:136-153 | the member sequence loses one member, and no other link slot changes |
| InnerLists.InnerList.PopFront | solid/utility/innerlist.hpp:155-159 | the last member of the sequence is removed and returned |
| InnerLists.InnerList.PopBack | solid/utility/innerlist.hpp:161-165 | the first member of the sequence is removed and returned |
| InnerLists.InnerList.Has | solid/utility/innerlist.hpp:223-225 | the answer is whether the index is a member |
| InnerLists.InnerList.ForEach | solid/utility/innerlist.hpp:175-185 | every member is visited once, in order, even when the callback erases it |
| InnerLists.InnerList.Clear | solid/utility/innerlist.hpp:204-208 | popping until the list is empty leaves no member |
| InnerLists.PushBeside | solid/utility/innerlist.hpp:66-94 | a list on another link slot of the same vector is not disturbed |
| WorkPoolTraces.JobsFollowRun | solid/utility/workpool.hpp:169-185 | in every run workers take the jobs the push steps pushed, in order, and those pushed are those queued, held and executed |
| WorkPoolTraces.StopExecutesAll | solid/utility/workpool.hpp:258-272 | when a waiting stop returns every job taken was executed once, and all jobs pushed before the pool began to stop are among them exactly if then nothing was queued or a worker was in its loop, or one was created later |
| WorkPoolTraces.SleepsUntilNotified | solid/utility/workpool.hpp:303-323 | in every run a worker sleeps exactly from going to sleep until it is notified or wakes by itself, and takes no job meanwhile |
| WorkPoolTraces.CountFromStart | solid/utility/workpool.hpp:188-235 | from the last start on the count is that of the workers there less those there at that start |
| WorkPoolRuns.JobsConserved | solid/utility/workpool.hpp:169-185 | in every run jobs are popped in the order pushed, and those pushed are those queued, held and executed |
| WorkPoolRuns.StopReturnsAfterAllJobs | solid/utility/workpool.hpp:258-272 | when a waiting stop returns the jobs popped were executed once each, and all jobs pushed before stopping are among them exactly when there was a worker in its loop or no job; it returns only if nobody was there at the start |
| WorkPoolRuns.NobodyOversleeps | solid/utility/workpool.hpp:309-314 | in every run a worker sleeps only while the pool runs, and never while a job waits unless another worker is on its way |
| WorkPoolRuns.WorkerCountNotNegative | solid/utility/workpool.hpp:325-331 | the asserted count is not negative exactly while as many workers are left as were there at the start of the pool |
| WorkPoolRuns.StrayBreaksCount | solid/utility/workpool.hpp:188-201 | whenever a worker was there at the start, some run makes the count negative |
| WorkPoolRuns.StopCanReturn | solid/utility/workpool.hpp:258-272 | a stopping pool started with nobody there can always be brought to the point where the waiting stop returns |
| WorkPoolRuns.CreatedBeforeStart | solid/utility/workpool.hpp:188-235 | a run that starts a pool with a worker there |
| WorkPoolRuns.AbleIsCounted | solid/utility/workpool.hpp:188-235 | with nobody there at the start, a running pool has a worker in its loop exactly when the count is positive |
| WorkPoolRuns.StopWithoutWorkers | solid/utility/workpool.hpp:258-272 | a run in which a pool without workers stops with a job left |

## Left out

- Update in place and aliasing in the concurrent protocols: reactor, manager, shared store runs and work pool
  are values changed step by step, not shared memory with weak ordering.
- Manager services: unregistration of services, the early return for a stopped service, and the service table,
  whose two copies follow the same protocol as the object table's.
- 64-bit generations and counts that wrap around; the table copies assume at most 2^63 threads.
- Leaving the reactor's run loop, its load figure, and clearing at exit.
- Two-phase construction of completion handlers and the intrusive handler list of an object.
- Shared-store controllers, and reuse of indices and wait nodes: any call on any index is allowed to happen,
  and a controller adds no erase entries.
- Moved-from elements of a container being loaded are taken to be empty, and targets start empty.
- Serializer streams, pointers, strings, UTF-8, user hooks and limits changed on the way; nested
  containers are scheduled directly instead of through a user's serialize function.
- Deserializer targets: completed parts are kept in order of completion instead of being written in place.
- An all-ones size for a target that is not a pointer is a refusal; the source asserts that it does not occur.
- The table of byte counts in `bit_count`: a byte's count is its number of ones.
- Queue and stack nodes are records named by their place in the sequence of nodes allocated, not addresses, and
  the slot arithmetic on raw memory is not modelled; destruction and move assignment neither.
- Inner list `fastClear` and moves.
- Work pool controllers that turn workers away and failing thread creation. Joining the threads at the end of
  `stop(true)` is a condition on that step; that the mutex is held meanwhile is not modelled.
  Two threads waiting in `stop(true)` at once, with a `start` before the second one wakes, are not modelled.
- Timers.TimerReactor.ChangeEntry: the branch of `addTimer` that uses it is not reached from a timer, which
  refuses a second wait while one is pending.
- Scheduler, sockets, resolver, aio objects, mpipc, debug log, files and sample programs.
