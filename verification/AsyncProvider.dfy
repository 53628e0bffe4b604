/** The in-memory async queue and provider as mutable objects, proved against AsyncStore. */
module AsyncProvider {
  import opened Prelude
  import opened Scheduling
  import opened AsyncStore
  import PriorityStore

  class MemoryAsyncQueue {
    const byPriority: bool
    var entries: map<Id, Entry>
    var pending: seq<Id>
    var scheduled: Schedule
    var pendingPriority: seq<PriorityStore.Item>
    var prioritySequence: nat
    ghost var born: set<Id>
    ghost var unplaced: map<Id, Awaiting>
    ghost var taken: seq<Id>
    ghost var asked: map<Id, Time>
    ghost var latest: Time
    ghost var failedEarly: set<Id>
    ghost var histories: map<Id, seq<Status>>

    ghost function View(): Store
      reads this
    {
      Store(byPriority, entries, pending, scheduled, PriorityStore.Store(pendingPriority, prioritySequence),
            born, unplaced, taken, asked, latest, failedEarly, histories)
    }

    constructor (byPriority: bool)
      ensures View() == Empty(byPriority)
    {
      this.byPriority := byPriority;
      entries, pending, scheduled, pendingPriority, prioritySequence := map[], [], EMPTY_DICT, [], 0;
      born, unplaced, taken, asked, latest, failedEarly, histories := {}, map[], [], map[], 0, {}, map[];
    }

    /** `apush` or `apush_priority`. */
    method Push(id: Id, priority: int)
      modifies this
      ensures View() == PushReady(old(View()), id, priority)
    {
      if byPriority {
        prioritySequence := prioritySequence + 1;
        pendingPriority := pendingPriority + [PriorityStore.Item(priority, prioritySequence, id)];
      } else {
        pending := pending + [id];
      }
    }

    /** `astore` of a new entry. */
    method NewRecord(id: Id, queuedAt: Time, priority: int)
      modifies this
      ensures View() == AsyncStore.NewRecord(old(View()), id, queuedAt, priority)
    {
      entries := entries[id := Entry(Queued, queuedAt, None, None, priority)];
      born := born + {id};
      histories := histories[id := [Queued]];
    }

    /** `aenqueue` without `available_at`. */
    method Enqueue(id: Id, queuedAt: Time, priority: int)
      modifies this
      ensures View() == AsyncStore.Enqueue(old(View()), id, queuedAt, priority)
    {
      NewRecord(id, queuedAt, priority);
      Push(id, priority);
    }

    /** `aenqueue` with `available_at`, up to the clock reading in `_astore_and_push`. */
    method StoreEntry(id: Id, queuedAt: Time, priority: int, availableAt: Time)
      modifies this
      ensures View() == AsyncStore.StoreEntry(old(View()), id, queuedAt, priority, availableAt)
    {
      NewRecord(id, queuedAt, priority);
      unplaced := unplaced[id := Awaiting(priority, availableAt)];
    }

    /** The rest of `_astore_and_push`: the clock reading decides between scheduling and pushing. */
    method Place(id: Id, priority: int, availableAt: Time, now: Time)
      requires id in unplaced && unplaced[id] == Awaiting(priority, availableAt)
      modifies this
      ensures View() == AsyncStore.Place(old(View()), id, now)
    {
      unplaced := unplaced - {id};
      latest := Max(latest, now);
      asked := asked[id := availableAt];
      if availableAt > now {
        PutKeeps(scheduled, id, availableAt);
        scheduled := Put(scheduled, id, availableAt);
      } else {
        Push(id, priority);
      }
    }

    /** `_pop_next_due_scheduled`. */
    method PopNextDueScheduled(now: Time) returns (found: Option<Id>)
      modifies this
      ensures View() == old(View()).(scheduled := scheduled)
      ensures (scheduled, found) == PopNextDue(old(entries), old(scheduled), now, byPriority)
    {
      hide Candidates, Pop, PopAll, FirstMax, Distinct;
      var candidates := Candidates(scheduled, now);
      while candidates != []
        invariant View() == old(View()).(scheduled := scheduled)
        invariant candidates == Candidates(scheduled, now)
        invariant PopNextDue(entries, scheduled, now, byPriority) ==
                  PopNextDue(old(entries), old(scheduled), now, byPriority)
        decreases |scheduled.order|
      {
        var queued := QueuedIn(entries, candidates);
        ghost var before := scheduled;
        var stale := StaleIn(entries, candidates);
        PopAllPrunes(before, stale);
        DropScheduled(stale);
        if queued == [] {
          assert candidates[0] in stale && stale[0] in before.order;
          candidates := Candidates(scheduled, now);
          continue;
        }
        var id := if byPriority then FirstMax(queued, entries) else queued[0];
        PopKeeps(scheduled, id);
        scheduled := Pop(scheduled, id);
        return Some(id);
      }
      found := None;
    }

    /** The loop that forgets candidates no longer queued. */
    method DropScheduled(stale: seq<Id>)
      modifies this
      ensures View() == old(View()).(scheduled := scheduled) && scheduled == PopAll(old(scheduled), stale)
    {
      for k := 0 to |stale|
        invariant View() == old(View()).(scheduled := scheduled)
        invariant PopAll(scheduled, stale[k..]) == PopAll(old(scheduled), stale)
      {
        assert stale[k..][1..] == stale[k + 1..];
        PopKeeps(scheduled, stale[k]);
        scheduled := Pop(scheduled, stale[k]);
      }
    }

    /** `apromote_scheduled` or `apromote_scheduled_priority`. */
    method PromoteScheduled(now: Time)
      modifies this
      ensures View() == Promote(old(View()), now)
    {
      var found := PopNextDueScheduled(now);
      latest := Max(latest, now);
      if found.Some? && found.value in entries {
        Push(found.value, entries[found.value].priority);
      }
    }

    /** `apop` or `apop_priority`; None stands for the empty and the missing-record exceptions. */
    method PopPending() returns (r: Option<Id>)
      modifies this
      ensures (View(), r) == PopReady(old(View()))
    {
      var id;
      if byPriority {
        if pendingPriority == [] {
          return None;
        }
        var least := PriorityStore.Least(pendingPriority);
        pendingPriority := Without(pendingPriority, least);
        id := least.id;
      } else {
        if pending == [] {
          return None;
        }
        id := pending[0];
        pending := pending[1..];
      }
      if id !in entries {
        return None;
      }
      taken := taken + [id];
      r := Some(id);
    }

    /** `adequeue`. */
    method Dequeue(now: Time) returns (r: Option<Id>)
      modifies this
      ensures (View(), r) == AsyncStore.Dequeue(old(View()), now)
    {
      PromoteScheduled(now);
      r := PopPending();
    }

    /** `_areplace_entry`; a queued entry that fails also leaves the dispatch stores. */
    method ReplaceEntry(id: Id, status: Status, now: Time) returns (done: bool)
      modifies this
      ensures (View(), done) == Mark(old(View()), id, status, now)
    {
      if status == Terminated || id !in entries || status !in NextStates(entries[id].status) {
        return false;
      }
      var previous := entries[id];
      entries := entries[id := Marked(previous, status, now)];
      histories := histories[id := (if id in histories then histories[id] else []) + [status]];
      if previous.status == Queued && status == Failed {
        DiscardPending(id);
        if id in unplaced {
          failedEarly := failedEarly + {id};
        }
      }
      done := true;
    }

    /** `_adiscard`. */
    method DiscardPending(id: Id)
      modifies this
      ensures View() == Discard(old(View()), id)
    {
      if byPriority {
        pendingPriority := PriorityStore.Except(pendingPriority, id);
      } else {
        pending := Without(pending, id);
      }
      PopKeeps(scheduled, id);
      scheduled := Pop(scheduled, id);
    }

    /** `aprune`: only a terminal record goes, from every store. */
    method Prune(id: Id) returns (pruned: bool)
      modifies this
      ensures (View(), pruned) == AsyncStore.Prune(old(View()), id)
    {
      if id !in entries || Terminated !in NextStates(entries[id].status) {
        return false;
      }
      entries := entries - {id};
      PopKeeps(scheduled, id);
      scheduled := Pop(scheduled, id);
      pending := Without(pending, id);
      pendingPriority := PriorityStore.Except(pendingPriority, id);
      pruned := true;
    }
  }
}
