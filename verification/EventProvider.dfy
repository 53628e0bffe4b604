/**
 The in-memory provider itself: dicts, a pending queue, and the loops that mutate them.

 Every method is proved to do exactly what its function in EventStore says, so the invariant and
 the whole-run theorems about those functions are about this object.
 */
module EventProvider {
  import opened Prelude
  import opened EventStore

  class QueueProviderMemory {
    var entries: map<Id, Entry>
    var pending: seq<Id>
    var claims: map<Id, Worker>
    var claimDeadlines: Dict
    var availableAt: map<Id, Time>
    var unclaimedDeadlines: Dict
    var unclaimedRemaining: map<Id, Time>
    ghost var born: set<Id>
    ghost var unpushed: set<Id>
    ghost var log: seq<Event>

    ghost function View(): Store
      reads this
    {
      Store(entries, pending, claims, claimDeadlines, availableAt, unclaimedDeadlines,
            unclaimedRemaining, born, unpushed, log)
    }

    constructor ()
      ensures View() == EMPTY
    {
      entries, pending, claims, claimDeadlines := map[], [], map[], EMPTY_DICT;
      availableAt, unclaimedDeadlines, unclaimedRemaining := map[], EMPTY_DICT, map[];
      born, unpushed, log := {}, {}, [];
    }

    /** `astore_event`: rejects an entry whose lifetime was never resolved. */
    method StoreEvent(id: Id, queuedAt: Time, lifetime: Option<Time>) returns (stored: bool)
      modifies this
      ensures stored == lifetime.Some?
      ensures View() == if stored then EventStore.StoreEvent(old(View()), id, Entry(queuedAt, lifetime.value))
                        else old(View())
    {
      if lifetime.None? {
        return false;
      }
      entries := entries[id := Entry(queuedAt, lifetime.value)];
      unclaimedDeadlines := Put(unclaimedDeadlines, id, queuedAt + lifetime.value);
      born, unpushed := born + {id}, unpushed + {id};
      stored := true;
    }

    /** `apush`. */
    method Push(id: Id)
      modifies this
      ensures View() == EventStore.Push(old(View()), id)
    {
      pending := pending + [id];
      unpushed := unpushed - {id};
    }

    /** Restart a paused lifetime from `now`; shared by release and recovery. */
    method ResumeLifetime(id: Id, now: Time)
      modifies this
      ensures View() == Resume(old(View()), id, now)
    {
      if id in unclaimedRemaining {
        var left := unclaimedRemaining[id];
        unclaimedRemaining := unclaimedRemaining - {id};
        unclaimedDeadlines := Put(unclaimedDeadlines, id, now + left);
      }
    }

    /** One iteration of the recovery loop. */
    method RecoverClaim(id: Id, now: Time)
      modifies this
      ensures View() == RecoverOne(old(View()), id, now)
    {
      claims := claims - {id};
      claimDeadlines := Pop(claimDeadlines, id);
      log := log + [Recovered(id, now)];
      if id in entries {
        ResumeLifetime(id, now);
        pending := pending + [id];
      }
    }

    /** `_recover_expired_claims`. */
    method RecoverExpiredClaims(now: Time)
      modifies this
      ensures View() == Recover(old(View()), now)
    {
      var expiredIds := DueKeys(claimDeadlines.order, claimDeadlines.vals, now);
      for k := 0 to |expiredIds|
        invariant RecoverAll(View(), expiredIds[k..], now) == Recover(old(View()), now)
      {
        var id := expiredIds[k];
        assert expiredIds[k..][1..] == expiredIds[k + 1..];
        RecoverClaim(id, now);
      }
    }

    /** The claim decision for an available id already popped from pending. */
    method ClaimPopped(id: Id, w: Worker, lease: Option<Time>, expireUnclaimed: bool, now: Time)
      returns (r: ClaimResult)
      modifies this
      ensures (View(), r) == ClaimHead(old(View()), id, w, lease, expireUnclaimed, now)
    {
      if id in claims {
        pending := pending + [id];
        return Conflict(id);
      }
      if id !in entries {
        return NotFound(id);
      }
      if expireUnclaimed && id in unclaimedDeadlines.vals && unclaimedDeadlines.vals[id] <= now {
        entries := entries - {id};
        availableAt := availableAt - {id};
        unclaimedDeadlines := Pop(unclaimedDeadlines, id);
        log := log + [Expired(id)];
        return TooLate(id);
      }
      if expireUnclaimed {
        if id !in unclaimedDeadlines.vals {
          return NoDeadline(id);
        }
        var deadline := unclaimedDeadlines.vals[id];
        unclaimedDeadlines := Pop(unclaimedDeadlines, id);
        unclaimedRemaining := unclaimedRemaining[id := deadline - now];
      }
      availableAt := availableAt - {id};
      claims := claims[id := w];
      if lease.Some? {
        claimDeadlines := Put(claimDeadlines, id, now + lease.value);
      }
      log := log + [Claimed(id, w, now, expireUnclaimed)];
      return Got(id);
    }

    /** `_aclaim`, under the lock; `now` was read before taking it. */
    method Claim(w: Worker, lease: Option<Time>, expireUnclaimed: bool, now: Time) returns (r: ClaimResult)
      modifies this
      ensures (View(), r) == EventStore.Claim(old(View()), w, lease, expireUnclaimed, now)
    {
      if lease.Some? && lease.value <= 0 {
        return BadBudget;
      }
      RecoverExpiredClaims(now);
      ghost var swept := View();
      var size := |pending|;
      for k := 0 to size
        invariant |pending| == size
        invariant ClaimScan(View(), w, lease, expireUnclaimed, now, size - k) ==
                  ClaimScan(swept, w, lease, expireUnclaimed, now, size)
      {
        var id := pending[0];
        pending := pending[1..];
        if id in availableAt && availableAt[id] > now {
          pending := pending + [id];
          continue;
        }
        r := ClaimPopped(id, w, lease, expireUnclaimed, now);
        return;
      }
      r := Nothing;
    }

    /** `_delete_event`; the history notes why. */
    method DeleteEvent(id: Id, ghost why: Event)
      modifies this
      ensures View() == EventStore.DeleteEvent(old(View()), id, why)
    {
      if id in entries {
        log := log + [why];
      }
      entries := entries - {id};
      availableAt := availableAt - {id};
      unclaimedDeadlines := Pop(unclaimedDeadlines, id);
      unclaimedRemaining := unclaimedRemaining - {id};
      pending := Without(pending, id);
    }

    /** `adequeue`. */
    method Dequeue(now: Time) returns (r: Option<Id>)
      modifies this
      ensures (View(), r) == EventStore.Dequeue(old(View()), now)
    {
      RecoverExpiredClaims(now);
      ghost var swept := View();
      var size := |pending|;
      for k := 0 to size
        invariant DequeueScan(View(), now, size - k) == DequeueScan(swept, now, size)
      {
        if pending == [] {
          break;
        }
        var id := pending[0];
        ghost var before := View();
        pending := pending[1..];
        if (id in availableAt && availableAt[id] > now) || id in claims {
          pending := pending + [id];
          assert View() == PassOver(before, now);
          continue;
        }
        if id !in entries || id !in unclaimedDeadlines.vals || unclaimedDeadlines.vals[id] <= now {
          DeleteEvent(id, Expired(id));
          assert View() == PassOver(before, now);
          continue;
        }
        DeleteEvent(id, Dequeued(id));
        return Some(id);
      }
      r := None;
    }

    /** `arenew`. */
    method Renew(id: Id, w: Worker, lease: Time, now: Time) returns (renewed: bool)
      modifies this
      ensures (View(), renewed) == EventStore.Renew(old(View()), id, w, lease, now)
    {
      if lease <= 0 {
        return false;
      }
      RecoverExpiredClaims(now);
      if id !in claims || claims[id] != w {
        return false;
      }
      claimDeadlines := Put(claimDeadlines, id, now + lease);
      renewed := true;
    }

    /** `arelease`. */
    method Release(id: Id, w: Worker, delay: Time, now: Time) returns (released: bool)
      modifies this
      ensures (View(), released) == EventStore.Release(old(View()), id, w, delay, now)
    {
      if delay <= 0 || id !in claims || claims[id] != w {
        return false;
      }
      claims := claims - {id};
      claimDeadlines := Pop(claimDeadlines, id);
      log := log + [Released(id, w, now)];
      ResumeLifetime(id, now);
      availableAt := availableAt[id := now + delay];
      pending := pending + [id];
      released := true;
    }

    /** `aremove`. */
    method Remove(id: Id, w: Worker) returns (removed: bool)
      modifies this
      ensures (View(), removed) == EventStore.Remove(old(View()), id, w)
    {
      if id !in claims || claims[id] != w {
        return false;
      }
      ForgetEverywhere(id);
      log := log + [Removed(id, w)];
      removed := true;
    }

    method ForgetEverywhere(id: Id)
      modifies this
      ensures View() == Forget(old(View()), id)
    {
      entries := entries - {id};
      claims := claims - {id};
      claimDeadlines := Pop(claimDeadlines, id);
      availableAt := availableAt - {id};
      unclaimedDeadlines := Pop(unclaimedDeadlines, id);
      unclaimedRemaining := unclaimedRemaining - {id};
      pending := Without(pending, id);
    }

    /** `adelete`. */
    method Delete(id: Id)
      modifies this
      ensures View() == EventStore.Delete(old(View()), id)
    {
      if id in entries {
        log := log + [Deleted(id)];
      }
      ForgetEverywhere(id);
    }

    /** `aexpire`. */
    method Expire(id: Id) returns (expired: bool)
      modifies this
      ensures (View(), expired) == EventStore.Expire(old(View()), id)
    {
      if id in claims || id !in entries {
        return false;
      }
      DeleteEvent(id, Expired(id));
      expired := true;
    }

    /** `aexpire_due`. */
    method ExpireDue(now: Time) returns (expiredIds: seq<Id>)
      modifies this
      ensures View() == EventStore.ExpireDue(old(View()), now)
      ensures expiredIds == ExpiredIds(old(View()), now)
    {
      expiredIds := Unclaimed(DueKeys(unclaimedDeadlines.order, unclaimedDeadlines.vals, now), claims);
      for k := 0 to |expiredIds|
        invariant DeleteAll(View(), expiredIds[k..]) == EventStore.ExpireDue(old(View()), now)
      {
        assert expiredIds[k..][1..] == expiredIds[k + 1..];
        DeleteEvent(expiredIds[k], Expired(expiredIds[k]));
      }
    }
  }
}
