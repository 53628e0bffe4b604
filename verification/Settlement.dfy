/**
 What an async worker stores and counts when handlers, leases and the backend fail in any
 combination. Backend calls choose nondeterministically between working, refusing, raising before
 any effect, and raising after the effect (a lost reply); between calls other workers may take the
 claim and move the record along its lifecycle. Every postcondition holds for every choice.
 */
module Settlement {
  import opened Prelude
  import opened Scheduling
  import opened AsyncStore

  /** How the handler's task ended, as `_dispatch` tells the cases apart. */
  datatype HandlerOutcome =
    | Returned(serialisable: bool)
    | Raised
    | RaisedTimeoutError          // the handler's own deadline, not the budget
    | BudgetExpired
    | RenewalLost
    | Interrupted(after: AfterCancel)

  /** What the handler did within the grace period after shutdown cancelled the dispatch. */
  datatype AfterCancel = Finished(serialisable: bool) | FinishedRaising | GraceExpired | HandlerCancelled

  /** The outcome a dispatch should record, if any. */
  function Expected(h: HandlerOutcome): Option<Status> {
    match h
    case Returned(ok) => Some(if ok then Succeeded else Failed)
    case Raised => Some(Failed)
    case RaisedTimeoutError => Some(Failed)
    case BudgetExpired => Some(TimedOut)
    case RenewalLost => None
    case Interrupted(Finished(ok)) => Some(if ok then Succeeded else Failed)
    case Interrupted(FinishedRaising) => Some(Failed)
    case Interrupted(GraceExpired) => Some(TimedOut)
    case Interrupted(HandlerCancelled) => None
  }

  datatype Counts = Counts(succeeded: nat, failed: nat, cancelled: nat, timedOut: nat)

  function Total(c: Counts): nat { c.succeeded + c.failed + c.cancelled + c.timedOut }

  function Bump(c: Counts, s: Status): Counts {
    match s
    case Succeeded => c.(succeeded := c.succeeded + 1)
    case Failed => c.(failed := c.failed + 1)
    case Cancelled => c.(cancelled := c.cancelled + 1)
    case TimedOut => c.(timedOut := c.timedOut + 1)
    case _ => c
  }

  /** The counters after every handler's outcome has been counted. */
  function CountAll(c: Counts, handlers: seq<HandlerOutcome>): Counts {
    if handlers == [] then c
    else
      var before, last := CountAll(c, handlers[..|handlers| - 1]), Expected(handlers[|handlers| - 1]);
      if last.Some? then Bump(before, last.value) else before
  }

  /** Raising covers both a call without effect and one whose reply was lost. */
  datatype Reply = Ok(status: Status) | Refused | Missing | Raises

  /** A backend call that did not do as asked, with the status it was to store. */
  datatype Fault =
    | ReadRaised | ReadMissing
    | SettleRaised(status: Status) | SettleRefused(status: Status)
    | UpdateRaised(status: Status) | UpdateMissing(status: Status)
    | PublishRaised

  /** What can go wrong while an entry is marked running. */
  const STARTING := {ReadRaised, ReadMissing, SettleRaised(Running), SettleRefused(Running),
                     UpdateRaised(Running), UpdateMissing(Running)}

  class AsyncQueueWorker {
    var dispatchCount: nat
    var succeededCount: nat
    var failedCount: nat
    var cancelledCount: nat
    var timedOutCount: nat

    // The backend's side: the entry's stored status, and whether this worker holds its claim.
    var record: Option<Status>
    var owned: bool
    ghost var faults: seq<Fault>        // history, kept by the backend calls: what went wrong
    ghost var readBack: seq<Status>        // history, kept by the backend calls: every status read back
    ghost var replacedTerminal: bool    // this worker overwrote a terminal record

    ghost function Counters(): Counts
      reads this
    {
      Counts(succeededCount, failedCount, cancelledCount, timedOutCount)
    }

    constructor ()
      ensures dispatchCount == 0 && Counters() == Counts(0, 0, 0, 0) && !replacedTerminal
    {
      dispatchCount, succeededCount, failedCount, cancelledCount, timedOutCount := 0, 0, 0, 0, 0;
      record, owned, faults, readBack, replacedTerminal := None, false, [], [], false;
    }

    predicate Holds(s: Status)
      reads this
    {
      record == Some(s)
    }

    /** No count changed, no terminal record was overwritten, and one that was stored is still
        there unless it was pruned. */
    twostate predicate Quiet()
      reads this
    {
      && dispatchCount == old(dispatchCount) && Counters() == old(Counters())
      && replacedTerminal == old(replacedTerminal)
      && old(faults) <= faults && old(readBack) <= readBack
      && (forall s :: old(Holds(s)) && IsTerminal(s) ==> Holds(s) || record == None)
      && (old(record) == None ==> record == None)
    }

    /** Other workers, lease recovery and pruning, between two calls of ours. */
    method Interfere()
      modifies this
      ensures Quiet() && faults == old(faults) && readBack == old(readBack)
      ensures owned ==> old(owned)
    {
      if * {
        owned := false;
      }
      if * {
        record := None;
      } else if record.Some? && !IsTerminal(record.value) {
        var s: Status :| true;
        record := Some(s);
      }
    }

    ghost method Note(f: Fault)
      modifies this`faults
      ensures faults == old(faults) + [f]
    {
      faults := faults + [f];
    }

    /** `afind`. */
    method Find() returns (r: Reply)
      modifies this
      ensures Quiet()
      ensures r.Ok? ==> Holds(r.status)
      ensures faults == old(faults) + (match r case Ok(_) => [] case Missing => [ReadMissing] case _ => [ReadRaised])
      ensures readBack == old(readBack) + if r.Ok? then [r.status] else []
      ensures !r.Refused?
    {
      Interfere();
      if * {
        r := Raises;
        Note(ReadRaised);
      } else if record.Some? {
        r := Ok(record.value);
        readBack := readBack + [record.value];
      } else {
        r := Missing;
        Note(ReadMissing);
      }
    }

    /** The owner-checked `asettle`: stores only over a running record this worker still holds, and
        gives up the claim with the same step. */
    method Settle(status: Status) returns (r: Reply)
      modifies this
      ensures Quiet() && readBack == old(readBack)
      ensures r == Ok(status) ==> Holds(status)
      ensures r == Ok(status) || r.Refused? || r.Raises?
      ensures faults == old(faults) +
              (match r case Ok(_) => [] case Refused => [SettleRefused(status)] case _ => [SettleRaised(status)])
    {
      Interfere();
      if * {
        r := Raises;
      } else if owned && record == Some(Running) {
        Store(status);
        owned := false;
        if * {
          r := Ok(status);
        } else {
          r := Raises;
        }
      } else {
        r := Refused;
      }
      if !r.Ok? {
        Note(if r.Refused? then SettleRefused(status) else SettleRaised(status));
      }
    }

    /** An `_amark_*` call: the transition check and the write of `_areplace_entry`. A missing record
        is an exception of its own. */
    method Update(status: Status) returns (r: Reply)
      modifies this
      ensures Quiet() && readBack == old(readBack)
      ensures r == Ok(status) ==> Holds(status)
      ensures r == Ok(status) || r.Raises? || r.Missing?
      ensures faults == old(faults) +
              (match r case Ok(_) => [] case Missing => [UpdateMissing(status)] case _ => [UpdateRaised(status)])
    {
      Interfere();
      r := Raises;
      if * {
        // raised before the write
      } else if record.None? {
        r := Missing;
      } else if status != Terminated && status in NextStates(record.value) {
        Store(status);
        if * {
          r := Ok(status);
        }
      }
      if !r.Ok? {
        Note(if r.Missing? then UpdateMissing(status) else UpdateRaised(status));
      }
    }

    method Store(status: Status)
      requires record.Some? && !IsTerminal(record.value)
      modifies this`record, this`replacedTerminal
      ensures record == Some(status) && replacedTerminal == old(replacedTerminal)
    {
      replacedTerminal := replacedTerminal || IsTerminal(record.value);
      record := Some(status);
    }

    /** `apublish`, which may fail too. */
    method Publish() returns (raised: bool)
      modifies this
      ensures Quiet() && readBack == old(readBack)
      ensures faults == old(faults) + if raised then [PublishRaised] else []
    {
      Interfere();
      raised := false;
      if * {
        raised := true;
        Note(PublishRaised);
      }
    }

    /** `_record_terminal`. */
    method RecordTerminal(s: Status)
      modifies this`succeededCount, this`failedCount, this`cancelledCount, this`timedOutCount
      ensures Counters() == Bump(old(Counters()), s)
    {
      match s
      case Succeeded => succeededCount := succeededCount + 1;
      case Failed => failedCount := failedCount + 1;
      case Cancelled => cancelledCount := cancelledCount + 1;
      case TimedOut => timedOutCount := timedOutCount + 1;
      case _ =>
    }

    /** What one recording attempt may have done: counted nothing, or counted once a terminal status
        that is what the store says, unless the record has been pruned since. */
    twostate predicate CountedAs(new counted: Option<Status>)
      reads this
    {
      && dispatchCount == old(dispatchCount)
      && replacedTerminal == old(replacedTerminal)
      && old(faults) <= faults && old(readBack) <= readBack
      && Counters() == (if counted.Some? then Bump(old(Counters()), counted.value) else old(Counters()))
      && (counted.Some? ==> IsTerminal(counted.value) && (Holds(counted.value) || record == None))
    }

    /** Exactly one call went wrong since, and in this way. */
    twostate predicate Only(f: Fault)
      reads this
    {
      |faults| == |old(faults)| + 1 && faults[|faults| - 1] == f
    }

    /** The status read back last, by a call made since. */
    twostate predicate LastRead(s: Status)
      reads this
    {
      |readBack| > |old(readBack)| && readBack[|readBack| - 1] == s
    }

    /** Publish, then count: the common tail of every recording path. */
    method PublishAndCount(s: Status) returns (counted: Option<Status>, raised: bool)
      requires IsTerminal(s) ==> Holds(s) || record == None
      modifies this
      ensures CountedAs(counted) && readBack == old(readBack)
      ensures faults == old(faults) + if raised then [PublishRaised] else []
      ensures counted == if !raised && IsTerminal(s) then Some(s) else None
    {
      counted := None;
      raised := Publish();
      if raised {
        return;
      }
      RecordTerminal(s);
      if IsTerminal(s) {
        counted := Some(s);
      }
    }

    /** `_settle_terminal`: the path of a worker that holds a claim. When a read or the settlement raises
        and the fallback then works, the failure is stored and counted exactly if the record was
        still running. */
    method SettleTerminal(status: Status) returns (counted: Option<Status>, raised: bool)
      requires IsTerminal(status)
      modifies this
      ensures CountedAs(counted)
      ensures counted == None || counted == Some(status) || (counted == Some(Failed) && faults != old(faults))
      ensures faults == old(faults) ==> counted == Some(status) && !raised
      ensures Only(ReadMissing) || Only(SettleRefused(status)) ==>
                counted == None && !raised
      ensures Only(ReadRaised) || Only(SettleRaised(status)) ==>
                !raised && |readBack| > |old(readBack)| &&
                counted == if LastRead(Running) then Some(Failed) else None
    {
      var current := Find();
      if current.Missing? {
        return None, false;
      }
      var settled := Raises;
      if current.Ok? {
        settled := Settle(status);
      }
      if settled.Raises? {
        counted, raised := RecordClaimPersistenceFailure();
      } else if settled.Refused? {
        counted, raised := None, false;
      } else {
        counted, raised := PublishAndCount(status);
      }
    }

    /** `_record_claim_persistence_failure`: unless a call of its own goes wrong, the failure is stored,
        published and counted exactly if the record it readBack back is still running. */
    method RecordClaimPersistenceFailure() returns (counted: Option<Status>, raised: bool)
      modifies this
      ensures CountedAs(counted)
      ensures counted == None || counted == Some(Failed)
      ensures raised <==> faults != old(faults)
      ensures !raised ==> |readBack| == |old(readBack)| + 1 && counted == if LastRead(Running) then Some(Failed) else None
    {
      var current := Find();
      if !current.Ok? {
        return None, true;
      }
      if current.status != Running {
        return None, false;
      }
      var settled := Settle(Failed);
      if !settled.Ok? {
        return None, true;
      }
      counted, raised := PublishAndCount(Failed);
    }

    /** `_publish_terminal`: the path of a worker without claims. When the update goes wrong and the
        fallback then works, a record still running is failed and counted so, and a terminal record
        read back is counted as it is. */
    method PublishTerminal(status: Status) returns (counted: Option<Status>, raised: bool)
      requires IsTerminal(status)
      modifies this
      ensures CountedAs(counted)
      ensures faults == old(faults) ==> counted == Some(status) && !raised
      ensures Only(UpdateRaised(status)) || Only(UpdateMissing(status)) ==>
                !raised && |readBack| > |old(readBack)| &&
                var last := readBack[|readBack| - 1];
                counted == if last == Running then Some(Failed) else if IsTerminal(last) then Some(last) else None
    {
      var updated := Update(status);
      var terminal := Some(status);
      if !updated.Ok? {
        terminal := RecordPersistenceFailure();
        if terminal.None? {
          return None, true;
        }
      }
      counted, raised := PublishAndCount(terminal.value);
    }

    /** `_record_persistence_failure`: the status to publish, read back or newly failed; nothing exactly
        when one of its own calls goes wrong. */
    method RecordPersistenceFailure() returns (terminal: Option<Status>)
      modifies this
      ensures Quiet()
      ensures terminal.Some? ==> Holds(terminal.value)
      ensures terminal.None? <==> faults != old(faults)
      ensures terminal.Some? ==>
                |readBack| == |old(readBack)| + 1 &&
                terminal.value == if LastRead(Running) then Failed else readBack[|readBack| - 1]
    {
      var current := Find();
      if !current.Ok? {
        return None;
      }
      if current.status != Running {
        return Some(current.status);
      }
      var updated := Update(Failed);
      terminal := if updated.Ok? then Some(Failed) else None;
    }

    /** `_record_result`, `_record_failure` and `_abandon_unresponsive_handler` by claim mode. */
    method Record(status: Status, claimed: bool) returns (counted: Option<Status>, raised: bool)
      requires IsTerminal(status)
      modifies this
      ensures CountedAs(counted)
      ensures faults == old(faults) ==> counted == Some(status) && !raised
      ensures RecoveredFrom(status, claimed, counted)
    {
      if claimed {
        counted, raised := SettleTerminal(status);
      } else {
        counted, raised := PublishTerminal(status);
      }
    }

    /** The only thing that went wrong was storing the outcome: the fallback then counted what a
        record still running, or already ended, calls for. */
    twostate predicate RecoveredFrom(status: Status, claimed: bool, counted: Option<Status>)
      reads this
    {
      && (claimed && Only(SettleRaised(status)) ==>
            |readBack| > |old(readBack)| && counted == if LastRead(Running) then Some(Failed) else None)
      && (!claimed && Only(UpdateRaised(status)) ==>
            |readBack| > |old(readBack)| &&
            var last := readBack[|readBack| - 1];
            counted == if last == Running then Some(Failed) else if IsTerminal(last) then Some(last) else None)
    }

    /** Persisting running: lost claims end the dispatch quietly, anything else raises. */
    method MarkRunning(claimed: bool) returns (r: Reply)
      modifies this
      ensures Quiet()
      ensures r.Ok? ==> faults == old(faults) && Holds(Running)
      ensures !r.Ok? ==> |faults| == |old(faults)| + 1 && faults[|faults| - 1] in STARTING
    {
      if claimed {
        r := Find();
        if !r.Ok? {
          return;
        }
        Interfere();
        if * {
          r := Raises;
        } else if owned && record == Some(Queued) {
          record := Some(Running);
          r := Ok(Running);
        } else {
          r := Refused;
        }
        if !r.Ok? {
          Note(if r.Refused? then SettleRefused(Running) else SettleRaised(Running));
        }
      } else {
        r := Update(Running);
      }
    }

    /** `_dispatch`, handler outcome given; `missing` marks the exception for a missing record. With a
        working backend the outcome the handler calls for is counted; when only storing it went wrong,
        the fallback's is. */
    method Dispatch(claimed: bool, handler: HandlerOutcome)
      returns (counted: Option<Status>, raised: bool, missing: bool)
      modifies this
      ensures missing ==> raised && counted == None
      ensures CountedAs(counted)
      ensures faults == old(faults) ==> counted == Expected(handler) && (raised <==> handler.Interrupted?)
      ensures Expected(handler).Some? ==> RecoveredFrom(Expected(handler).value, claimed, counted)
    {
      counted, missing := None, false;
      raised := Publish();
      if raised {
        return;
      }
      var started := MarkRunning(claimed);
      if !started.Ok? {
        return None, !started.Refused?, started.Missing?;
      }
      raised := Publish();
      if raised {
        return;
      }
      match handler
      case Returned(ok) => counted, raised := Record(if ok then Succeeded else Failed, claimed);
      case Raised => counted, raised := Record(Failed, claimed);
      case RaisedTimeoutError => counted, raised := Record(Failed, claimed);
      case BudgetExpired => counted, raised := Record(TimedOut, claimed);
      case RenewalLost =>
      case Interrupted(after) =>
        counted := FinishCancellation(after, claimed);
        raised := true;
    }

    /** `_finish_cancellation`; the cancellation itself is re-raised by the caller. */
    method FinishCancellation(after: AfterCancel, claimed: bool) returns (counted: Option<Status>)
      modifies this
      ensures CountedAs(counted)
      ensures faults == old(faults) ==> counted == Expected(Interrupted(after))
      ensures Expected(Interrupted(after)).Some? ==>
                RecoveredFrom(Expected(Interrupted(after)).value, claimed, counted)
    {
      var raised;
      counted := None;
      match after
      case Finished(ok) => counted, raised := Record(if ok then Succeeded else Failed, claimed);
      case FinishedRaising => counted, raised := Record(Failed, claimed);
      case GraceExpired => counted, raised := Record(TimedOut, claimed);
      case HandlerCancelled =>
    }

    /** The dispatch loop of `run`, which goes on after a missing record and stops at any other
        exception: whatever the handlers and the backend do, outcomes counted never exceed dispatches,
        and no terminal record is ever replaced; with a working backend and no shutdown every handler
        is dispatched and counted as it calls for. */
    method Run(handlers: seq<HandlerOutcome>, claimed: bool)
      requires Total(Counters()) <= dispatchCount
      modifies this
      ensures Total(Counters()) <= dispatchCount <= old(dispatchCount) + |handlers|
      ensures replacedTerminal == old(replacedTerminal)
      ensures faults == old(faults) && (forall h :: h in handlers ==> !h.Interrupted?) ==>
                dispatchCount == old(dispatchCount) + |handlers| && Counters() == CountAll(old(Counters()), handlers)
    {
      for k := 0 to |handlers|
        invariant Total(Counters()) <= dispatchCount <= old(dispatchCount) + k
        invariant replacedTerminal == old(replacedTerminal) && old(faults) <= faults
        invariant faults == old(faults) ==>
                    dispatchCount == old(dispatchCount) + k && Counters() == CountAll(old(Counters()), handlers[..k])
      {
        // A fresh entry, claimed or dequeued, becomes the one this dispatch is about.
        var status: Status :| true;
        record, owned := Some(status), claimed;
        dispatchCount := dispatchCount + 1;
        var counted, raised, missing := Dispatch(claimed, handlers[k]);
        if raised && !missing {
          return;
        }
        assert handlers[..k + 1] == handlers[..k] + [handlers[k]];
      }
      assert handlers[..|handlers|] == handlers;
    }
  }
}
