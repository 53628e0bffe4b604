# Verified model of a leased work queue

This project models the protocol core of the `django_queue` package in Dafny and proves what its
design promises: events are delivered to one consumer at a time and consumed at most once, leases
and lifetimes add up, observers see each publication exactly once, scheduled and priority work
comes out in order, and a worker's books balance whatever fails.

`dafny verify dfyconfig.toml` checks everything. The files follow the package's parts:

| part | files |
|---|---|
| event delivery in the in-memory provider | `EventStore` (one function per locked block), `EventProvider` (the mutable object, proved equal to those functions), `EventInvariant`, `EventRuns`, `EventFifo`, `EventEndings`, `EventLease`, `EventAnswers` (what each call does to each id) |
| lifecycle observers | `Observers` (steps), `ObserverDelivery` (exactly-once accounting), `ObserverQueue` (the mutable object), `ObserverRuns` and `ObserverBootstrap` (the promises told by the calls made), `DecoratorActivation` |
| scheduled, priority and async queues | `Scheduling`, `SchedulingOrder`, `PriorityStore`, `RedisPriority`, `AsyncStore`, `AsyncProvider`, `AsyncRuns`, `AsyncAnswers` |
| workers | `Settlement`, `EventDispatch`, `FirstSeen` |
| clocks | `Clock`, `RedisClock` |

## How it is modelled

- Every block the code runs under a lock is one step that takes the clock reading its caller made
  beforehand. A run is any sequence of steps, so any number of threads and workers interleave, and
  readings may arrive out of order unless a statement says otherwise. Where the code acts outside
  its lock (a publisher testing `initialising`, an observer queue put, an event enqueue that stores
  and then pushes), that action is a step of its own. One async queue instance belongs to one thread;
  its calls interleave only where they await the clock.
- Objects the code mutates are classes. Each method ensures that the new state is the one its
  specification function gives, and the theorems are about those functions. History the program does
  not keep (event logs, ids stored but not yet pushed, copies of a publication) is held in extra
  fields and never read by the modelled code.
- Dicts whose iteration order matters are insertion-ordered (`Prelude.Dict`). Instants and durations
  are whole microseconds; `Clock` alone uses reals.
- The worker's backend is adversarial: calls may work, refuse, raise before any effect or raise after
  it, and other workers may act between any two calls.

## Findings

- An event can end between being stored and being pushed; its id is then pushed without a record, and
  a claim can meet it (`EventEndings.OrphanReachable`). A claim can ever meet an id without a record if
  and only if the id is unused, is between store and push, or already waits so
  (`EventEndings.OrphanMetIff`); an event that ends after its push is never met
  (`EventEndings.EndedEventIsMetIff`). The claim-conflict and missing-deadline branches, in contrast,
  cannot be reached (`ClaimBranchesUnreachable`).
- A renewal that lands exactly a quarter lease after its wake-up is too late for every lease longer
  than ten minutes, because a lease ends at its deadline and not after it
  (`FullQuarterLateLosesLongLease`); anything strictly earlier is always in time.
- With a clock that suspends, an async entry failed before dispatch can still be dequeued if and only
  if its enqueue, made with `available_at`, was suspended between storing and placing it, and then
  exactly if placing reads the clock at or after `available_at` (`FailedBeforeDispatch`,
  `FailedEntryIsDequeued`). With the local clock, which never suspends, that moment does not arise.
- The Redis clock sets its refreshing flag before it starts the thread. If `Thread.start` raises, the
  flag stays set and no refresh ever starts again; that is the only way refreshing stops
  (`RefreshGoesOnIff`, `StuckReachable`).
- Packed priority scores order like the heap's tuples for all priorities if and only if the sequence
  numbers lie less than 2^32 apart (`ScoreOrderIff`).

## Model

| member | source | states |
|---|---|---|
| EventProvider.QueueProviderMemory.StoreEvent | django_queue/backends/memory/provider.py:147-154 | an unresolved lifetime is rejected without effect; otherwise record and deadline queued_at + lifetime are stored and the id awaits its push |
| EventProvider.QueueProviderMemory.Push | django_queue/backends/memory/provider.py:212-214 | the id joins the back of pending |
| EventProvider.QueueProviderMemory.ResumeLifetime | django_queue/backends/memory/provider.py:448-449 | a paused lifetime restarts from the given instant with exactly what was left |
| EventProvider.QueueProviderMemory.RecoverClaim | django_queue/backends/memory/provider.py:505-513 | one expired claim is freed, its lifetime resumed and its id requeued |
| EventProvider.QueueProviderMemory.RecoverExpiredClaims | django_queue/backends/memory/provider.py:498-513 | the loop recovers exactly the leases that have ended, in dict order |
| EventProvider.QueueProviderMemory.ClaimPopped | django_queue/backends/memory/provider.py:394-422 | the full decision for a popped available id: conflict, missing, expired, no deadline, or paused, claimed and leased |
| EventProvider.QueueProviderMemory.Claim | django_queue/backends/memory/provider.py:372-423 | validation, recovery and the rotating scan compute the claim function, result and state |
| EventProvider.QueueProviderMemory.DeleteEvent | django_queue/backends/memory/provider.py:515-520 | every store but claims forgets the id |
| EventProvider.QueueProviderMemory.Dequeue | django_queue/backends/memory/provider.py:343-370 | the consuming scan computes the dequeue function, result and state |
| EventProvider.QueueProviderMemory.Renew | django_queue/backends/memory/provider.py:425-435 | recovery first, then the lease restarts from now for the owner only |
| EventProvider.QueueProviderMemory.Release | django_queue/backends/memory/provider.py:437-452 | the owner's claim ends, the lifetime resumes, the id waits out its delay at the back |
| EventProvider.QueueProviderMemory.Remove | django_queue/backends/memory/provider.py:454-465 | the owner's event leaves every store; anyone else changes nothing |
| EventProvider.QueueProviderMemory.Delete | django_queue/backends/memory/provider.py:163-184 | the id leaves every event store whoever holds it |
| EventProvider.QueueProviderMemory.Expire | django_queue/backends/memory/provider.py:193-206 | only an unclaimed, stored event is expired, and then leaves every store |
| EventProvider.QueueProviderMemory.ExpireDue | django_queue/backends/memory/provider.py:470-480 | exactly the unclaimed events past their deadline are deleted and returned in order |
| EventInvariant.StoreEventKeeps | django_queue/backends/memory/provider.py:147-154 | storing under a fresh id keeps the invariant: placement, lifetime clock, fate and owner of every id, and a lawful log |
| EventInvariant.PushKeeps | django_queue/backends/memory/provider.py:212-214 | pushing an id stored but not yet pushed keeps the invariant |
| EventInvariant.RecoverKeeps | django_queue/backends/memory/provider.py:498-513 | lease recovery keeps the invariant |
| EventInvariant.ClaimKeeps | django_queue/backends/memory/provider.py:372-423 | claiming keeps the invariant and never takes the conflict or missing-deadline branch |
| EventInvariant.DequeueKeeps | django_queue/backends/memory/provider.py:343-370 | direct dequeue keeps the invariant |
| EventInvariant.RenewKeeps | django_queue/backends/memory/provider.py:425-435 | renewal keeps the invariant |
| EventInvariant.ReleaseKeeps | django_queue/backends/memory/provider.py:437-452 | release keeps the invariant |
| EventInvariant.RemoveKeeps | django_queue/backends/memory/provider.py:454-465 | removal keeps the invariant |
| EventInvariant.DeleteKeeps | django_queue/backends/memory/provider.py:163-184 | deletion keeps the invariant |
| EventInvariant.ExpireDueKeeps | django_queue/backends/memory/provider.py:470-480 | the expiry sweep keeps the invariant |
| EventRuns.Reachable | django_queue/backends/memory/provider.py:147-520 | the invariant holds after every run of all event operations |
| EventRuns.EveryIdHasOneFate | django_queue/backends/memory/provider.py:147-520 | an enqueued id is live or was consumed, expired or deleted exactly once; a live id is unpushed, pending or claimed, exactly one of them; pending has no duplicates |
| EventRuns.ConsumedAtMostOnce | django_queue/backends/memory/provider.py:343-465 | over any run at most one aremove or adequeue succeeds per id |
| EventRuns.ClaimBranchesUnreachable | django_queue/backends/memory/provider.py:394-416 | no reachable claim raises a conflict or misses a deadline |
| EventRuns.LifetimeConserved | django_queue/backends/memory/provider.py:403-421 | a running deadline is queued_at + lifetime + all time spent in pausing claims; a paused remainder is positive and exact |
| EventRuns.HistoryIsLawful | django_queue/backends/memory/provider.py:394-465 | at every point of every run only the owner releases or removes, nothing held is claimed, consumed or expired, and nothing happens to a finished id |
| EventRuns.OwnerMatchesHistory | django_queue/backends/memory/provider.py:419-465 | the stored owner is exactly the one the event history names |
| EventEndings.StepNarrows | django_queue/backends/memory/provider.py:163-520 | under the invariant every step but a store and a push leaves any id without a new record and without being orphaned anew, and only adds to the history |
| EventEndings.EndedStays | django_queue/backends/memory/provider.py:163-520 | an event that has ended has no record after any continuation |
| EventEndings.OnlyOwnerSettles | django_queue/backends/memory/provider.py:437-465 | over runs: release and removal succeed exactly for the owner the history names and change nothing otherwise; a removed event stays consumed exactly once, unowned and undeliverable whatever follows |
| EventEndings.NotFoundIff | django_queue/backends/memory/provider.py:394-402 | a claim reports a missing record if and only if, after recovery, the first available pending id has none |
| EventEndings.OrphanMetIff | django_queue/backends/base.py:560-561 | in every reachable state some continuation makes a claim report an id missing if and only if the id is unused, stored and not yet pushed, or already pending without a record |
| EventEndings.EndedEventIsMetIff | django_queue/backends/base.py:560-561 | whatever step ends a live event, a claim can meet its bare id later if and only if it ended between store and push |
| EventEndings.OrphanReachable | django_queue/backends/base.py:560-561 | one such run: stored, expired, pushed, met by a claim |
| EventFifo.ClaimTakesFirstAvailable | django_queue/backends/memory/provider.py:385-423 | the loop takes the first available id, every id before it being delayed, and leaves a rotation of the rest, unchanged when it reports empty |
| EventFifo.DequeueTakesFirstDeliverable | django_queue/backends/memory/provider.py:343-370 | adequeue returns the first available, unclaimed, stored, unexpired id and reports empty exactly when there is none |
| EventFifo.StepNears | django_queue/backends/memory/provider.py:372-513 | any step delivers a waiting event or leaves it unchanged, one place nearer for each delivery call |
| EventFifo.DeliveredWithinPosition | django_queue/backends/memory/provider.py:372-513 | an event at position j that no reader finds delayed or expired and no sweep finds expired is delivered within j + 1 delivery calls whatever interleaves |
| EventLease.ForeignKeepsLease | django_queue/backends/memory/provider.py:498-513 | no step by others read before the deadline disturbs a lease |
| EventLease.RenewalSucceedsIffInTime | django_queue/backends/memory/provider.py:425-435 | a renewal succeeds if and only if it reads the clock before the deadline; a late one leaves the event unowned |
| EventLease.OwnedWhileRenewing | django_queue/backends/redis/worker.py:86-111 | a worker renewing on schedule, less than a quarter lease late each time, owns its claim in every state through any number of renewals and any foreign steps that read the clock before the running deadline, even later than the renewal |
| EventLease.ScheduleSlack | django_queue/backends/redis/worker.py:86-92 | the schedule leaves half a lease of slack up to a minute, a third up to ten minutes and a quarter beyond, so never less than a quarter |
| EventLease.FullQuarterLateLosesLongLease | django_queue/backends/redis/worker.py:86-111 | landing exactly a quarter late loses every lease over ten minutes |
| EventAnswers.RecoverIs | django_queue/backends/memory/provider.py:498-513 | recovery frees exactly the claims whose lease has ended; such an event waits again at once, its lifetime running from the recovery; every other id is untouched |
| EventAnswers.ClaimIs | django_queue/backends/memory/provider.py:372-423 | a claim answers for the first available id after recovery: missing; out of time exactly from its deadline on, and gone; or granted to the calling worker, leased from now to the instant asked for or for good, and paused with exactly what was left; every other id is untouched |
| EventAnswers.ClaimIsEmptyIff | django_queue/backends/memory/provider.py:372-423 | a claim is rejected exactly for a non-positive lease, without effect, and comes back empty exactly if every pending id is still delayed |
| EventAnswers.GotIsOwned | django_queue/backends/memory/provider.py:417-422 | the answer means ownership by the caller with the lease it asked for |
| EventAnswers.OwnedFromClaim | django_queue/backends/redis/worker.py:86-111 | from a granted claim on, a worker renewing on schedule owns the event in every state |
| EventAnswers.DequeueIs | django_queue/backends/memory/provider.py:343-370 | adequeue returns the first pending event that is stored, unclaimed, past its delay and in time; ahead of it exactly those past their delay, being out of time, are deleted; delayed ones and all others are untouched |
| EventAnswers.RenewIs | django_queue/backends/memory/provider.py:425-435 | renewal succeeds exactly for the owner the history names after recovery, restarts that lease from now and changes nothing else |
| EventAnswers.ReleaseIs | django_queue/backends/memory/provider.py:437-452 | the owner's release ends claim and lease, resumes the lifetime from now, delays the event until now + delay and changes nothing else |
| EventAnswers.ReleasedWaits | django_queue/backends/memory/provider.py:437-452 | over any continuation whose readings precede the end of the delay a released event is not handed out |
| EventAnswers.ExpireDueIs | django_queue/backends/memory/provider.py:470-480 | the sweep ends and returns, once each, exactly the unclaimed events at or past their deadline, and touches no other |
| EventAnswers.EndingsAre | django_queue/backends/memory/provider.py:163-206 | removal by the owner, expiry of one unclaimed event and deletion end that event and touch no other |
| EventAnswers.EnqueueIs | django_queue/backends/base.py:553-561 | storing leaves the record with its deadline and awaiting its push; pushing leaves it waiting at the back |
| EventAnswers.RecordIsAsStored | django_queue/backends/memory/provider.py:147-154 | over every run a stored record is the one its enqueue stored, never altered |
| EventAnswers.EndsOnlyForCause | django_queue/backends/memory/provider.py:163-520 | over every run an event ends only by being handed to a direct reader, removed by its owner, deleted or expired by name, or unclaimed and out of time, by queued_at + lifetime + paused time, at the ending step's own reading |
| ObserverQueue.QueueObservers.Register | django_queue/observers.py:65-75 | a new registration starts active, initialising, at the current sequence |
| ObserverQueue.QueueObservers.Unregister | django_queue/observers.py:102-108 | the registration turns inactive and leaves the list, others keep their order |
| ObserverQueue.PopFirst | django_queue/observers.py:105-108 | the list without the first occurrence of the registration, the others in order |
| ObserverQueue.BufferFor | django_queue/observers.py:116-118 | exactly the listed registrations still initialising get the entry appended |
| ObserverQueue.QueueObservers.Publish | django_queue/observers.py:112-118 | numbering, snapshot of registrations and buffering as one step |
| ObserverQueue.QueueObservers.TestNext | django_queue/observers.py:119-120 | one unlocked test of a registration's flag is the protocol's test step and says whether to deliver, go on, or drop the publication |
| ObserverQueue.QueueObservers.QueueEvent | django_queue/observers.py:134-147 | a full queue drops, otherwise the delivery is appended |
| ObserverQueue.QueueObservers.QueueLive | django_queue/observers.py:119-120 | a publication that passed a test moves from its publisher to the queue, as the protocol's step |
| ObserverQueue.QueueObservers.QueueBoot | django_queue/observers.py:131-132 | the next snapshot of a bootstrap batch moves to the queue, as the protocol's step |
| ObserverQueue.QueueObservers.Get | django_queue/observers.py:159-166 | the oldest delivery is taken; a bootstrap delivery is for its target alone |
| ObserverQueue.QueueObservers.TakeRegistrations | django_queue/observers.py:162-164 | a live delivery visits the registrations listed when it is taken, in order |
| ObserverQueue.QueueObservers.Activate | django_queue/observers.py:126-131 | the buffer moves to the ordered batch, the window closes at the current sequence, live delivery opens |
| ObserverQueue.QueueObservers.Visit | django_queue/observers.py:167-189 | the protocol's visit step: an observer is called exactly when active, initialised, outside the bootstrap window and interested |
| ObserverQueue.QueueObservers.EndVisits | django_queue/observers.py:157-159 | with nobody left to visit the dispatcher is idle again |
| Observers.OrderedIsSort | django_queue/observers.py:283-301 | a bootstrap batch is a sorted permutation: entry, lifecycle rank, timestamp |
| ObserverDelivery.NextKeeps | django_queue/observers.py:65-183 | every step, the unlocked flag tests included, keeps the account of every copy of a publication for every observer |
| ObserverDelivery.DeliveredAtMostOnce | django_queue/observers.py:65-183 | in every interleaving a publication sequenced after registration reaches an observer at most once, bootstrap and live together, and unaltered |
| ObserverDelivery.DeliveredExactlyOnce | django_queue/observers.py:65-183 | an observer still active and interested has received it exactly once when all is quiet, unless that delivery was dropped |
| ObserverRuns.RunIs | django_queue/observers.py:65-132 | in every reachable state publications are numbered in the order published, and each observer's filter, starting number, subscription and bootstrap are what the calls made amount to |
| ObserverRuns.PublicationsReach | django_queue/observers.py:65-189 | told by the calls: the k-th publication, made after an observer registered, reaches it at most once, and exactly once when all is quiet if it has not unsubscribed, asked for that entry or for all, and the delivery was not dropped |
| ObserverBootstrap.ActivateLists | django_queue/observers.py:122-132 | the bootstrap batch holds every listed record as often as it was listed |
| ObserverBootstrap.RetainedReach | django_queue/observers.py:122-189 | over every run each listed record is with the activation, queued, being dispatched, delivered or dropped, as often as listed, and delivered that often when all is quiet and none was dropped |
| ObserverBootstrap.OnlyTheEntryAskedFor | django_queue/observers.py:179-183 | an observer of one entry is only ever told about that entry |
| ObserverBootstrap.SilentOnceUnsubscribed | django_queue/observers.py:102-108 | once unsubscribed an observer is told nothing more, whatever follows |
| ObserverBootstrap.QueueIsFifo | django_queue/observers.py:134-159 | deliveries leave the queue in the order they came, and one is dropped only when 128 are waiting |
| DecoratorActivation.PendingRegistration.TryBegin | django_queue/observers.py:471-478 | is the protocol's begin step, and the caller won exactly if it is now an activation attempt |
| DecoratorActivation.PendingRegistration.RegisterNow | django_queue/observers.py:481-485 | is the protocol's successful registration: one more live subscription, held by the attempt |
| DecoratorActivation.PendingRegistration.Finish | django_queue/observers.py:486-491 | is the protocol's finish step, or its failure step when registration raised; the teardown flag it returns is the one the closing step obeys |
| DecoratorActivation.PendingRegistration.Close | django_queue/observers.py:492-493 | is the protocol's closing step: the subscription goes if unsubscribe came first |
| DecoratorActivation.PendingRegistration.Unsubscribe | django_queue/observers.py:344-349 | is the protocol's unsubscribe step; what it returns is the subscription this call now owes an end |
| DecoratorActivation.PendingRegistration.EndUnsubscribe | django_queue/observers.py:349-349 | is the protocol's end of an unsubscribe: that subscription is no longer live |
| DecoratorActivation.NextKeeps | django_queue/observers.py:344-493 | every step of any thread keeps one holder of the flag and dooms every subscription that unsubscribe was asked for |
| DecoratorActivation.AtMostOneSubscription | django_queue/observers.py:430-493 | over every interleaving, failures and re-entrance included, at most one subscription is ever made |
| DecoratorActivation.UnsubscribedStaysDown | django_queue/observers.py:344-349 | after unsubscribe, once nothing is in flight, no subscription is live |
| DecoratorActivation.CancelledNeverBegins | django_queue/observers.py:471-478 | after unsubscribe no activation attempt starts |
| DecoratorActivation.BeginsIff | django_queue/observers.py:471-478 | a fresh attempt begins exactly if nobody has unsubscribed, nothing was ever registered and no other attempt is on its way there |
| DecoratorActivation.RegisteredStaysLive | django_queue/observers.py:479-493 | once a registration succeeded and all attempts are over, exactly one subscription is live unless somebody unsubscribed |
| Scheduling.Candidates | django_queue/backends/memory/provider.py:242-252 | empty exactly when nothing is due, and only due keys otherwise |
| Scheduling.PopNextDue | django_queue/backends/memory/provider.py:238-273 | terminates: every retry and every success works on a strictly smaller schedule |
| SchedulingOrder.PopNextDueTakesFirst | django_queue/backends/memory/provider.py:238-273 | nothing exactly when nothing is ready; otherwise the entry ahead of all ready ones by availability, priority and arrival, the rest untouched |
| SchedulingOrder.DrainDueIsOrdered | django_queue/backends/memory/provider.py:216-273 | promoting until empty yields exactly the ready entries, once each, in that order |
| AsyncProvider.MemoryAsyncQueue.PopNextDueScheduled | django_queue/backends/memory/provider.py:238-273 | the while loop over the mutable schedule computes the promotion function |
| AsyncProvider.MemoryAsyncQueue.PromoteScheduled | django_queue/backends/memory/provider.py:220-236 | one due entry moves to the ready store, numbered when by priority |
| AsyncProvider.MemoryAsyncQueue.PopPending | django_queue/backends/memory/provider.py:275-316 | FIFO head or least tuple leaves the ready store; a missing record is reported after the pop |
| AsyncProvider.MemoryAsyncQueue.Enqueue | django_queue/backends/base.py:298-322 | without available_at, record and ready id appear in one step |
| AsyncProvider.MemoryAsyncQueue.StoreEntry | django_queue/backends/base.py:298-340 | with available_at, only the record is stored before the second clock reading |
| AsyncProvider.MemoryAsyncQueue.Place | django_queue/backends/base.py:341-345 | schedules exactly when available_at lies after the clock reading, pushes otherwise |
| AsyncProvider.MemoryAsyncQueue.Dequeue | django_queue/backends/base.py:357-360 | promotion then pop |
| AsyncProvider.MemoryAsyncQueue.ReplaceEntry | django_queue/backends/base.py:474-501 | refuses missing records and illegal transitions unchanged; a queued entry that fails also leaves the dispatch stores |
| AsyncProvider.MemoryAsyncQueue.DiscardPending | django_queue/backends/memory/mempqueue.py:53-55 | the id leaves the ready store and the schedule |
| AsyncProvider.MemoryAsyncQueue.Prune | django_queue/backends/memory/provider.py:163-191 | only a terminal record is pruned, from every store |
| AsyncRuns.LifecycleHolds | django_queue/backends/base.py:411-496 | over every run histories follow the transition graph without terminated, finished_at is set exactly when terminal, only queued or failed records lack dispatched_at |
| AsyncRuns.DequeuedAtMostOnce | django_queue/backends/base.py:298-368 | each id is dequeued at most once, and never while it still waits somewhere |
| AsyncRuns.NeverDispatchedEarly | django_queue/backends/base.py:341-360 | no dequeue returns an entry before a clock reading has reached its available_at |
| AsyncRuns.FailedBeforeDispatch | django_queue/backends/base.py:489-501 | an entry failed before dispatch is dequeued later if and only if its enqueue was suspended between store and placement, and then exactly if placement reads the clock at or after available_at |
| AsyncRuns.FailedEntryIsDequeued | django_queue/backends/base.py:341-345 | one such run: stored for instant 5, failed, placed at 5, dequeued as failed |
| AsyncRuns.DequeuesAreOrdered | django_queue/backends/memory/mempqueue.py:46-51 | repeated dequeues from empty ready stores at one reading return exactly the due entries by availability, priority, arrival |
| AsyncAnswers.RecordsAreAsAsked | django_queue/backends/base.py:298-345 | in every reachable state priority, queued_at, available_at and the priority a waiting entry is ranked by are those its enqueue asked for, and dispatched_at and finished_at are the readings of marks made |
| AsyncAnswers.DequeueTakesTop | django_queue/backends/memory/mempqueue.py:46-51 | a priority dequeue returns the entry that outranks all others waiting after promotion, by the priority its enqueue asked for and then arrival; nothing exactly if none waits or its record is gone |
| AsyncAnswers.DequeuesAreStableSort | django_queue/backends/memory/provider.py:293-316 | with nothing due, dequeues on a priority queue serve the stable sort of the waiting entries by priority |
| AsyncAnswers.DequeuesAreInOrder | django_queue/backends/memory/provider.py:275-283 | with nothing due, dequeues on the plain queue serve the waiting entries in order |
| AsyncAnswers.RunNumbers | django_queue/backends/memory/provider.py:227-306 | over every run the priority store is the result of a history of pushes, pops and discards, numbered in the order entries became ready |
| AsyncAnswers.StepNears | django_queue/backends/memory/provider.py:212-283 | any step dequeues a waiting entry of the plain queue or leaves it waiting, one place nearer for each dequeue, later arrivals behind it |
| AsyncAnswers.DequeuedWithinPosition | django_queue/backends/memory/provider.py:212-283 | an entry at position j, not failed or pruned, is dequeued within j + 1 dequeues whatever interleaves |
| AsyncAnswers.NotBeforeItsTime | django_queue/backends/base.py:341-360 | told by the calls: no dequeue returns an entry before a reading of the run has reached the available_at its enqueue asked for |
| AsyncAnswers.PlaceIs | django_queue/backends/base.py:341-345 | a placed entry is scheduled exactly if its time lies ahead of the reading and is ready, once, otherwise |
| AsyncAnswers.MarkIs | django_queue/backends/base.py:411-496 | a mark succeeds exactly from queued to running or failed and from running to queued or an end, writes the status and its own instant, and changes no other record |
| AsyncAnswers.PruneIs | django_queue/backends/memory/provider.py:186-191 | exactly an ended record is pruned, leaves every store, and nothing else changes |
| AsyncAnswers.LivesAre | django_queue/entries.py:27-50 | over every run a record was queued, then failed or running, then ended once and for good |
| PriorityStore.DrainIsStableSort | django_queue/backends/memory/provider.py:293-316 | draining the heap is the stable sort by priority of its members in arrival order |
| PriorityStore.DiscardKeepsDrainOrder | django_queue/backends/memory/provider.py:318-323 | discarding an id only removes it from the drain order |
| PriorityStore.DrainAfterAnyHistory | django_queue/backends/memory/provider.py:227-323 | both hold after any history of pushes, pops and discards |
| RedisPriority.ScoreRefinesTuple | django_queue/backends/redis/provider.py:51-80 | within the magnitude bound and 2^32 sequences, scores are exact doubles, injective, and ordered like the heap's tuples |
| RedisPriority.ScoreOrderIff | django_queue/backends/redis/provider.py:51-69 | the packed order agrees for all priorities if and only if sequences lie less than 2^32 apart |
| RedisPriority.PushSortsLast | django_queue/backends/redis/provider.py:784-814 | a push scores below every member of equal priority |
| RedisPriority.TopIsLeast | django_queue/backends/redis/library.lua:26-34 | the best score belongs to exactly the least tuple |
| RedisPriority.CounterContract | django_queue/backends/redis/library.lua:16-34 | in every reachable state, however many pushes, sequences are distinct, positive and at most the counter, which is zero when empty, and a push scores below all its equals |
| RedisPriority.StoresPopTheSame | django_queue/backends/redis/provider.py:784-834 | after any shared history, across drains and counter resets, the Redis store and the in-memory heap pop the same id |
| Settlement.AsyncQueueWorker.RecordTerminal | django_queue/worker.py:725-740 | exactly the counter of the given terminal status grows by one |
| Settlement.AsyncQueueWorker.SettleTerminal | django_queue/worker.py:599-633 | counts at most once, and then what the store says; the given status if nothing went wrong, nothing if the claim or the record was lost, and if a read or the settlement raised and the fallback worked, failed exactly if the record was still running |
| Settlement.AsyncQueueWorker.RecordClaimPersistenceFailure | django_queue/worker.py:635-678 | raises exactly if a call of its own goes wrong; otherwise the failure is stored and counted exactly if the record it reads back is running |
| Settlement.AsyncQueueWorker.PublishTerminal | django_queue/worker.py:680-700 | counts at most once a status the store holds; the given one if nothing went wrong, and if only the update did, failed for a record still running and the stored end otherwise |
| Settlement.AsyncQueueWorker.RecordPersistenceFailure | django_queue/worker.py:702-723 | gives up exactly if a call of its own goes wrong; otherwise a running record is failed and any other returned as read, never replacing a terminal one |
| Settlement.AsyncQueueWorker.FinishCancellation | django_queue/worker.py:517-540 | after shutdown the handler's own ending decides, counted at most once |
| Settlement.AsyncQueueWorker.Dispatch | django_queue/worker.py:369-471 | for every handler outcome and every backend behaviour at most one outcome is counted and it is the stored one; the handler's if nothing went wrong, the fallback's if only storing it did |
| Settlement.AsyncQueueWorker.Run | django_queue/worker.py:253-304 | outcomes counted never exceed dispatches and no terminal record is replaced, over any run, which goes on after a missing record; with a working backend and no shutdown every handler is counted as it calls for |
| EventDispatch.RotationIsComplete | django_queue/event_worker.py:149-160 | the rotation pairs every index once with its own listener, starting after the cursor |
| EventDispatch.FirstToDecide | django_queue/event_worker.py:86-122 | the first listener in rotation order that does not pass the event on decides: an answer removes it, an exception releases it, a lost lease leaves it; if all pass it on it is released |
| EventDispatch.EventQueueWorker.Dispatch | django_queue/event_worker.py:76-131 | stops at the first answer, exception or lost lease, attempts exactly one settlement or none after a lost lease, and leaves the cursor at the last listener tried |
| EventDispatch.ConsumersStopFirst | django_queue/event_worker.py:86-122 | among listeners that all consume, the one after the cursor takes the event |
| EventDispatch.EventQueueWorker.Run | django_queue/event_worker.py:53-131 | over a run of events, the listeners behind the removals are those the rotation and its cursor name |
| EventDispatch.TakersTakeTurns | django_queue/event_worker.py:86-160 | when every listener consumes, a run of dispatches is taken by the listeners in turn from the one after the cursor |
| EventDispatch.FairShares | django_queue/event_worker.py:86-160 | over any run of dispatches such listeners take every event, with counts differing by at most one |
| FirstSeen.Scanner.PublishNew | django_queue/worker.py:306-324 | a scan publishes the sorted new ids and moves the cursor to the largest |
| FirstSeen.ScanIs | django_queue/worker.py:306-324 | exactly the listed ids beyond the cursor, in order; nothing listed stays beyond it; it never moves back |
| FirstSeen.NeverScannedTwice | django_queue/worker.py:306-324 | over all scans of a run the published ids strictly increase |
| Clock.FromTimestampRecovers | django_queue/clock.py:58-71 | any non-negative real strictly within half a microsecond gives back the instant, carry included |
| Clock.TimestampRoundTrip | django_queue/clock.py:58-90 | to_timestamp then from_timestamp is the identity |
| Clock.FromTimestampIsNearest | django_queue/clock.py:58-71 | every non-negative timestamp becomes a valid instant at most half a microsecond away |
| Clock.OrderIsTotalOrder | django_queue/clock.py:26-36 | the field-wise order and equality are those of total microseconds |
| Clock.AddIsIntegerAddition | django_queue/clock.py:101-110 | adding a duration adds its rounded microseconds and fails exactly before the epoch |
| Clock.MeasureThenShift | django_queue/clock.py:101-127 | u + (t - u) is t, and the difference is negative exactly when t is earlier |
| Clock.ElapsedLeadsToEnd | django_queue/clock.py:130-148 | a reported duration is non-negative and leads from start to end; it is absent exactly when the clock went back |
| RedisClock.RedisQueueClock.Now | django_queue/clock.py:218-241 | calibrates once, starts a refresh when due and none is in flight, and returns local time plus offset, or nothing when calibration or the thread's start raises |
| RedisClock.RedisQueueClock.ReadEnds | django_queue/clock.py:263-280 | a reading within the drift bound is kept with its instant; any other leaves only the flag to clear |
| RedisClock.RedisQueueClock.SetCalibration | django_queue/clock.py:300-306 | offset and attempt time come from the same reading |
| RedisClock.RedisQueueClock.ClearRefreshing | django_queue/clock.py:326-328 | the flag clears when the thread ends |
| RedisClock.ClockIsSafe | django_queue/clock.py:218-328 | in every reachable state the offset is within 180 s, at most one refresh is in flight, the flag is set exactly then if and only if no thread failed to start, and starts lie an interval apart |
| RedisClock.ReadingStartsRefreshIff | django_queue/clock.py:233-238 | a reading granted a thread starts a refresh if and only if none is in flight, none failed to start and an interval has passed since the last attempt |
| RedisClock.OffsetOnlyRefreshed | django_queue/clock.py:300-328 | once calibrated the offset changes only by a successful refresh |
| RedisClock.OffsetIsReported | django_queue/clock.py:263-306 | over every run an established offset is one Redis reported in answer to a step |
| RedisClock.FirstReadingCalibrates | django_queue/clock.py:233-235 | the first reading takes over what Redis says exactly if it lies within the drift bound |
| RedisClock.RefreshInstalls | django_queue/clock.py:308-328 | a completed refresh installs exactly its own reading and the instant it was made |
| RedisClock.FailedRefreshDoesNotBlock | django_queue/clock.py:308-328 | a read that fails or drifts too far, whatever steps come before the flag is cleared, keeps offset and last attempt and clears the flag, and the next reading an interval later starts another |
| RedisClock.RefreshGoesOnIff | django_queue/clock.py:233-241 | from a reachable state some continuation starts another refresh if and only if no thread has failed to start |
| RedisClock.StuckReachable | django_queue/clock.py:236-238 | one run that sets the flag for good: the due thread is refused |

## Left out

- EventStore: durations that are not whole microseconds, and the float division of a paused remainder; the model's arithmetic is exact.
- EventStore: the raw-value calls, notifications, and `_requeue_skipped_pending` on a stack, which no in-memory backend reaches through its public calls.
- EventProvider.QueueProviderMemory.Claim: the promotion of scheduled ids before the scan; event enqueue ignores `available_at`, so an event provider schedules nothing and the call finds nothing.
- EventLease.OwnedWhileRenewing: the lease rules are those of the in-memory provider; the Redis scripts for claims are not part of this model.
- Scheduling: LIFO order of `MemoryAsyncStack`; its scheduling and lifecycle are those modelled here.
- AsyncStore: concurrent use of one async queue instance from several threads, where a pop could fall between the store and the discard of a failing entry; the model is one thread whose clock may suspend.
- PriorityStore: the array layout `heapq` keeps; the store is its members and pops the least tuple.
- Observers: the dispatcher's stop sentinel, callbacks' own effects, and delivery order between a bootstrap batch and live snapshots, which the code does not promise.
- DecoratorActivation: several pending observers activated by one call when an earlier one fails to register, and a runtime start that raises after registration.
- Settlement.AsyncQueueWorker.Update: the read and the write of one transition are one step, as on the in-memory backend; the claim path relies on the script's own check that the record is running.
- EventDispatch.EventQueueWorker.Dispatch: cancellation while a listener runs, which releases the event.
- FirstSeen.NeverScannedTwice: a scan that fails half way repeats what it had published, since the cursor only moves at its end.
- RedisClock: the asynchronous clock, whose refresh is a task on the event loop.
- Clock.FromTimestampRecovers: the rounding of double arithmetic; timestamps are reals.
- JSON encoding, settings, queue registry, Redis connections, cluster routing, management commands and the demo applications: plumbing around the protocols.
