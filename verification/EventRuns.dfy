/** Whole runs of the event queue: any number of workers, any interleaving, any clock readings. */
module EventRuns {
  import opened Prelude
  import opened EventStore
  import opened EventInvariant

  datatype Op =
    | OpStore(id: Id, entry: Entry)
    | OpPush(id: Id)
    | OpClaim(worker: Worker, lease: Option<Time>, expire: bool, now: Time)
    | OpDequeue(now: Time)
    | OpRenew(id: Id, worker: Worker, duration: Time, now: Time)
    | OpRelease(id: Id, worker: Worker, duration: Time, now: Time)
    | OpRemove(id: Id, worker: Worker)
    | OpExpire(id: Id)
    | OpExpireDue(now: Time)
    | OpDelete(id: Id)

  /** One atomic step. Enqueue stores under an id never used before and pushes each stored id
      once, so a step outside that discipline does not occur and changes nothing here. */
  function Apply(st: Store, op: Op): Store {
    match op
    case OpStore(id, e) => if id in st.born then st else StoreEvent(st, id, e)
    case OpPush(id) => if id in st.unpushed then Push(st, id) else st
    case OpClaim(w, lease, expire, now) => Claim(st, w, lease, expire, now).0
    case OpDequeue(now) => Dequeue(st, now).0
    case OpRenew(id, w, d, now) => Renew(st, id, w, d, now).0
    case OpRelease(id, w, d, now) => Release(st, id, w, d, now).0
    case OpRemove(id, w) => Remove(st, id, w).0
    case OpExpire(id) => Expire(st, id).0
    case OpExpireDue(now) => ExpireDue(st, now)
    case OpDelete(id) => Delete(st, id)
  }

  function Run(st: Store, ops: seq<Op>): Store
    decreases |ops|
  {
    if ops == [] then st else Run(Apply(st, ops[0]), ops[1..])
  }

  lemma ApplyKeeps(st: Store, op: Op)
    requires Inv(st)
    ensures Inv(Apply(st, op))
  {
    match op
    case OpStore(id, e) => if id !in st.born { StoreEventKeeps(st, id, e); }
    case OpPush(id) => if id in st.unpushed { PushKeeps(st, id); }
    case OpClaim(w, lease, expire, now) => ClaimKeeps(st, w, lease, expire, now);
    case OpDequeue(now) => DequeueKeeps(st, now);
    case OpRenew(id, w, d, now) => RenewKeeps(st, id, w, d, now);
    case OpRelease(id, w, d, now) => ReleaseKeeps(st, id, w, d, now);
    case OpRemove(id, w) => RemoveKeeps(st, id, w);
    case OpExpire(id) => if id !in st.claims { DeleteEventKeeps(st, id, Expired(id)); }
    case OpExpireDue(now) => ExpireDueKeeps(st, now);
    case OpDelete(id) => DeleteKeeps(st, id);
  }

  lemma {:induction false} RunKeeps(st: Store, ops: seq<Op>)
    requires Inv(st)
    ensures Inv(Run(st, ops))
    decreases |ops|
  {
    if ops != [] {
      ApplyKeeps(st, ops[0]);
      RunKeeps(Apply(st, ops[0]), ops[1..]);
    }
  }

  lemma Reachable(ops: seq<Op>)
    ensures Inv(Run(EMPTY, ops))
  {
    EmptyHolds();
    RunKeeps(EMPTY, ops);
  }

  lemma {:induction false} EndsSplit(log: seq<Event>, id: Id)
    ensures Tally(log, id, IsEnd) ==
            Tally(log, id, IsConsumption) + Tally(log, id, IsExpiry) + Tally(log, id, IsDeletion)
  {
    if log != [] {
      EndsSplit(log[..|log| - 1], id);
    }
  }

  /** Every id ever enqueued is live, or was consumed, expired or deleted exactly once; a live id
      is in exactly one of unpushed, pending and claimed, and pending holds no id twice. */
  lemma EveryIdHasOneFate(ops: seq<Op>, id: Id)
    ensures
      var st := Run(EMPTY, ops);
      var ends := Tally(st.log, id, IsConsumption) + Tally(st.log, id, IsExpiry) + Tally(st.log, id, IsDeletion);
      && ends == (if id in st.born && id !in st.entries then 1 else 0)
      && (id in st.entries ==> id in st.born)
      && (id in st.entries ==>
            || (id in st.unpushed && id !in st.pending && id !in st.claims)
            || (id !in st.unpushed && id in st.pending && id !in st.claims)
            || (id !in st.unpushed && id !in st.pending && id in st.claims))
      && Distinct(st.pending)
  {
    Reachable(ops);
    var st := Run(EMPTY, ops);
    assert Sound(st, id);
    EndsSplit(st.log, id);
  }

  /** Over any run at most one `aremove` or `adequeue` ever succeeds for an id. */
  lemma ConsumedAtMostOnce(ops: seq<Op>, id: Id)
    ensures Tally(Run(EMPTY, ops).log, id, IsConsumption) <= 1
  {
    EveryIdHasOneFate(ops, id);
  }

  /** No reachable claim reports a conflict or finds an event without its deadline. */
  lemma ClaimBranchesUnreachable(ops: seq<Op>, w: Worker, lease: Option<Time>, expire: bool, now: Time)
    ensures !Claim(Run(EMPTY, ops), w, lease, expire, now).1.Conflict?
    ensures !Claim(Run(EMPTY, ops), w, lease, expire, now).1.NoDeadline?
  {
    Reachable(ops);
    ClaimKeeps(Run(EMPTY, ops), w, lease, expire, now);
  }

  /** An event's lifetime is conserved: its running deadline is queued_at + lifetime + all time spent
      in pausing claims; while paused, what is left is positive and measured from the claim. */
  lemma LifetimeConserved(ops: seq<Op>, id: Id)
    requires id in Run(EMPTY, ops).entries
    ensures
      var st := Run(EMPTY, ops);
      var allowance := st.entries[id].queuedAt + st.entries[id].lifetime + PausedTotal(st.log, id);
      match PausedSince(st.log, id)
      case None => id in st.deadlines.vals && id !in st.remaining && st.deadlines.vals[id] == allowance
      case Some(since) =>
        && id in st.claims && id in st.remaining && id !in st.deadlines.vals
        && st.remaining[id] == allowance - since > 0
  {
    Reachable(ops);
    assert Sound(Run(EMPTY, ops), id);
  }

  lemma {:induction false} LawfulAt(log: seq<Event>, k: nat)
    requires Lawful(log) && k < |log|
    ensures Allowed(log[..k], log[k])
  {
    var n := |log| - 1;
    if k < n {
      LawfulAt(log[..n], k);
      assert log[..n][..k] == log[..k];
    }
  }

  /** At every point of every run: only the current owner's release or removal succeeds, a claim
      never takes a held event, and nothing at all happens to an id after its end. */
  lemma HistoryIsLawful(ops: seq<Op>, k: nat)
    requires k < |Run(EMPTY, ops).log|
    ensures Allowed(Run(EMPTY, ops).log[..k], Run(EMPTY, ops).log[k])
  {
    Reachable(ops);
    LawfulAt(Run(EMPTY, ops).log, k);
  }

  /** The stored owner is the one the history names. */
  lemma OwnerMatchesHistory(ops: seq<Op>, id: Id, w: Worker)
    ensures Owns(Run(EMPTY, ops), id, w) <==> Owner(Run(EMPTY, ops).log, id) == Some(w)
  {
    Reachable(ops);
    assert Sound(Run(EMPTY, ops), id);
  }
}
