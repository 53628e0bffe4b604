/** Leases: a worker that renews on schedule keeps its claim; a late one always loses it. */
module EventLease {
  import opened Prelude
  import opened EventStore
  import opened EventInvariant
  import opened EventRuns

  const SHORT_LEASE: Time := 60_000_000
  const MEDIUM_LEASE: Time := 600_000_000

  /** `_renewal_delay`: how long the worker sleeps between renewals, in microseconds. */
  function RenewalDelay(lease: Time): real {
    if lease <= SHORT_LEASE then lease as real / 2.0
    else if lease <= MEDIUM_LEASE then lease as real * 2.0 / 3.0
    else lease as real * 3.0 / 4.0
  }

  /** `w` holds `id` under a lease that ends at `deadline`. */
  predicate Leased(st: Store, id: Id, w: Worker, deadline: Time) {
    Owns(st, id, w) && id in st.leases.vals && st.leases.vals[id] == deadline
  }

  predicate HasReading(op: Op) {
    op.OpClaim? || op.OpDequeue? || op.OpRenew? || op.OpRelease? || op.OpExpireDue?
  }

  /** A step by someone else: `w` itself does not settle or renew `id`, and nobody clears it. */
  predicate Foreign(op: Op, id: Id, w: Worker) {
    match op
    case OpRenew(x, v, _, _) => !(x == id && v == w)
    case OpRelease(x, v, _, _) => !(x == id && v == w)
    case OpRemove(x, v) => !(x == id && v == w)
    case OpDelete(x) => x != id
    case _ => true
  }

  lemma {:induction false} RecoverAllLeavesLease(st: Store, ids: seq<Id>, now: Time, id: Id, w: Worker, deadline: Time)
    requires Leased(st, id, w, deadline) && id !in ids && id !in st.pending
    ensures Leased(RecoverAll(st, ids, now), id, w, deadline) && id !in RecoverAll(st, ids, now).pending
    decreases |ids|
  {
    if ids != [] {
      RecoverAllLeavesLease(RecoverOne(st, ids[0], now), ids[1..], now, id, w, deadline);
    }
  }

  lemma RecoverLeavesLease(st: Store, now: Time, id: Id, w: Worker, deadline: Time)
    requires Inv(st) && Leased(st, id, w, deadline) && now < deadline
    ensures Leased(Recover(st, now), id, w, deadline) && id !in Recover(st, now).pending
  {
    assert Sound(st, id);
    DueKeysAre(st.leases.order, st.leases.vals, now);
    RecoverAllLeavesLease(st, DueKeys(st.leases.order, st.leases.vals, now), now, id, w, deadline);
  }

  lemma {:induction false} ClaimScanLeavesLease(
    st: Store, v: Worker, lease: Option<Time>, expire: bool, now: Time, n: nat, id: Id, w: Worker, deadline: Time)
    requires Leased(st, id, w, deadline) && id !in st.pending
    ensures Leased(ClaimScan(st, v, lease, expire, now, n).0, id, w, deadline)
    decreases n
  {
    if n != 0 && st.pending != [] && !Available(st.availableAt, st.pending[0], now) {
      var turned := Requeue(st.(pending := st.pending[1..]), st.pending[0]);
      assert id !in turned.pending;
      ClaimScanLeavesLease(turned, v, lease, expire, now, n - 1, id, w, deadline);
    }
  }

  lemma {:induction false} WithoutSubset(s: seq<Id>, x: Id, y: Id)
    requires y !in s
    ensures y !in Without(s, x)
  {
    if s != [] {
      WithoutSubset(s[1..], x, y);
    }
  }

  lemma {:induction false} DequeueScanLeavesLease(st: Store, now: Time, n: nat, id: Id, w: Worker, deadline: Time)
    requires Leased(st, id, w, deadline) && id !in st.pending
    ensures Leased(DequeueScan(st, now, n).0, id, w, deadline)
    decreases n
  {
    if n != 0 && st.pending != [] && Skips(st, st.pending[0], now) {
      WithoutSubset(st.pending[1..], st.pending[0], id);
      assert id !in PassOver(st, now).pending;
      DequeueScanLeavesLease(PassOver(st, now), now, n - 1, id, w, deadline);
    }
  }

  lemma {:induction false} DeleteAllLeavesLease(st: Store, ids: seq<Id>, id: Id, w: Worker, deadline: Time)
    requires Leased(st, id, w, deadline)
    ensures Leased(DeleteAll(st, ids), id, w, deadline)
    decreases |ids|
  {
    if ids != [] {
      DeleteAllLeavesLease(DeleteEvent(st, ids[0], Expired(ids[0])), ids[1..], id, w, deadline);
    }
  }

  /** No foreign step whose clock reading precedes the deadline disturbs a lease. */
  lemma ForeignKeepsLease(st: Store, op: Op, id: Id, w: Worker, deadline: Time)
    requires Inv(st) && Leased(st, id, w, deadline) && Foreign(op, id, w)
    requires HasReading(op) ==> op.now < deadline
    ensures Leased(Apply(st, op), id, w, deadline)
  {
    assert Sound(st, id);
    match op
    case OpClaim(v, lease, expire, now) =>
      RecoverLeavesLease(st, now, id, w, deadline);
      var swept := Recover(st, now);
      ClaimScanLeavesLease(swept, v, lease, expire, now, |swept.pending|, id, w, deadline);
    case OpDequeue(now) =>
      RecoverLeavesLease(st, now, id, w, deadline);
      var swept := Recover(st, now);
      DequeueScanLeavesLease(swept, now, |swept.pending|, id, w, deadline);
    case OpRenew(x, v, d, now) => RecoverLeavesLease(st, now, id, w, deadline);
    case OpExpireDue(now) => DeleteAllLeavesLease(st, ExpiredIds(st, now), id, w, deadline);
    case _ =>
  }

  lemma {:induction false} RecoverAllDrops(st: Store, ids: seq<Id>, now: Time, id: Id)
    requires id in ids || id !in st.claims
    ensures id !in RecoverAll(st, ids, now).claims
    decreases |ids|
  {
    if ids != [] {
      RecoverAllDrops(RecoverOne(st, ids[0], now), ids[1..], now, id);
    }
  }

  /** A renewal succeeds exactly while the lease runs; it then lasts from the renewal, and a
      renewal at or after the deadline fails and leaves the event unowned. */
  lemma RenewalSucceedsIffInTime(st: Store, id: Id, w: Worker, deadline: Time, lease: Time, now: Time)
    requires Inv(st) && Leased(st, id, w, deadline) && Budget(lease)
    ensures Renew(st, id, w, lease, now).1 <==> now < deadline
    ensures now < deadline ==> Leased(Renew(st, id, w, lease, now).0, id, w, now + lease)
    ensures now >= deadline ==> id !in Renew(st, id, w, lease, now).0.claims
  {
    if now < deadline {
      RecoverLeavesLease(st, now, id, w, deadline);
    } else {
      DueKeysAre(st.leases.order, st.leases.vals, now);
      RecoverAllDrops(st, DueKeys(st.leases.order, st.leases.vals, now), now, id);
    }
  }

  // ---- Renewing on schedule ----

  /** One sleep of the renewal task: what others do meanwhile, then the renewal's clock reading. */
  datatype Round = Round(others: seq<Op>, renewAt: Time)

  /** The renewal lands less than a quarter lease after its wake-up. Every foreign step that takes
      the lock before it has read the clock before the running deadline; since `arenew` reads the
      clock before it takes the lock, such a reading may well be later than the renewal's own. */
  predicate OnSchedule(r: Round, id: Id, w: Worker, lease: Time, last: Time) {
    && (r.renewAt - last) as real < RenewalDelay(lease) + lease as real / 4.0
    && forall op :: op in r.others ==> Foreign(op, id, w) && (HasReading(op) ==> op.now < last + lease)
  }

  predicate AllOnSchedule(rounds: seq<Round>, id: Id, w: Worker, lease: Time, last: Time)
    decreases |rounds|
  {
    rounds != [] ==>
      OnSchedule(rounds[0], id, w, lease, last) &&
      AllOnSchedule(rounds[1..], id, w, lease, rounds[0].renewAt)
  }

  function Steps(rounds: seq<Round>, id: Id, w: Worker, lease: Time): seq<Op> {
    if rounds == [] then []
    else rounds[0].others + [OpRenew(id, w, lease, rounds[0].renewAt)] + Steps(rounds[1..], id, w, lease)
  }

  predicate OwnedThroughout(st: Store, ops: seq<Op>, id: Id, w: Worker)
    decreases |ops|
  {
    Owns(st, id, w) && (ops != [] ==> OwnedThroughout(Apply(st, ops[0]), ops[1..], id, w))
  }

  lemma OnScheduleIsInTime(r: Round, id: Id, w: Worker, lease: Time, last: Time)
    requires Budget(lease) && OnSchedule(r, id, w, lease, last)
    ensures r.renewAt < last + lease
  {
    assert RenewalDelay(lease) <= lease as real * 3.0 / 4.0;
  }

  lemma {:induction false} KeepsUntilRenewal(
    st: Store, others: seq<Op>, r: Round, rest: seq<Round>, id: Id, w: Worker, lease: Time, last: Time)
    requires Inv(st) && Budget(lease) && Leased(st, id, w, last + lease)
    requires OnSchedule(r, id, w, lease, last) && forall op :: op in others ==> op in r.others
    requires AllOnSchedule(rest, id, w, lease, r.renewAt)
    ensures OwnedThroughout(st, others + [OpRenew(id, w, lease, r.renewAt)] + Steps(rest, id, w, lease), id, w)
    decreases |rest|, |others| + 1
  {
    hide Inv, Renew;
    OnScheduleIsInTime(r, id, w, lease, last);
    var ops := others + [OpRenew(id, w, lease, r.renewAt)] + Steps(rest, id, w, lease);
    ApplyKeeps(st, ops[0]);
    if others == [] {
      RenewalSucceedsIffInTime(st, id, w, last + lease, lease, r.renewAt);
      assert ops[1..] == Steps(rest, id, w, lease);
      OwnedWhileRenewing(Apply(st, ops[0]), rest, id, w, lease, r.renewAt);
    } else {
      assert others[0] in r.others;
      ForeignKeepsLease(st, others[0], id, w, last + lease);
      assert ops[1..] == others[1..] + [OpRenew(id, w, lease, r.renewAt)] + Steps(rest, id, w, lease);
      KeepsUntilRenewal(Apply(st, others[0]), others[1..], r, rest, id, w, lease, last);
    }
  }

  /** A worker leased at `last` that renews on schedule owns its claim in every state of the run,
      through any number of renewals and any foreign steps between them. */
  lemma {:induction false} OwnedWhileRenewing(
    st: Store, rounds: seq<Round>, id: Id, w: Worker, lease: Time, last: Time)
    requires Inv(st) && Budget(lease) && Leased(st, id, w, last + lease)
    requires AllOnSchedule(rounds, id, w, lease, last)
    ensures OwnedThroughout(st, Steps(rounds, id, w, lease), id, w)
    decreases |rounds|, 0
  {
    if rounds != [] {
      KeepsUntilRenewal(st, rounds[0].others, rounds[0], rounds[1..], id, w, lease, last);
    }
  }

  /** The slack is half a lease up to a minute, a third up to ten minutes and a quarter beyond, so never
      less than a quarter. */
  lemma ScheduleSlack(lease: Time)
    requires Budget(lease)
    ensures lease as real - RenewalDelay(lease) >= lease as real / 4.0
    ensures lease as real - RenewalDelay(lease) == lease as real / 2.0 <==> lease <= SHORT_LEASE
    ensures lease as real - RenewalDelay(lease) == lease as real / 3.0 <==> SHORT_LEASE < lease <= MEDIUM_LEASE
    ensures lease as real - RenewalDelay(lease) == lease as real / 4.0 <==> lease > MEDIUM_LEASE
  {
  }

  /** A full quarter lease late is too late for every lease over ten minutes. */
  lemma FullQuarterLateLosesLongLease(st: Store, id: Id, w: Worker, lease: Time, last: Time, now: Time)
    requires Inv(st) && lease > MEDIUM_LEASE && Leased(st, id, w, last + lease)
    requires (now - last) as real == RenewalDelay(lease) + lease as real / 4.0
    ensures !Renew(st, id, w, lease, now).1
  {
    ScheduleSlack(lease);
    assert now == last + lease;
    RenewalSucceedsIffInTime(st, id, w, last + lease, lease, now);
  }
}
