/**
 The synchronous Redis clock: a calibrated offset refreshed by at most one background thread.

 The lock is held for the whole of `now` and for each update the background thread makes; reading
 Redis happens outside it. Monotonic readings never decrease along a run.
 */
module RedisClock {
  import opened Prelude

  const MAX_DRIFT: Time := 180_000_000

  /** A background refresh: reading Redis, holding a result, or about to clear the flag. */
  datatype Refresh = Reading | Read(offset: Time, at: Time) | Clearing

  datatype State = State(
    offset: Option<Time>,
    lastAttempt: Option<Time>,
    refreshing: bool,
    threads: seq<Refresh>,      // background refreshes in flight
    starts: seq<Time>,          // history: monotonic readings at which one was started
    stuck: bool,                // history: a thread failed to start after the flag was set
    monotonic: Time)            // history: latest monotonic reading

  const INIT := State(None, None, false, [], [], false, 0)

  /** `_read_calibration`: what Redis said, or None for unavailable or unusable. */
  predicate Trustworthy(offset: Time) { -MAX_DRIFT <= offset <= MAX_DRIFT }

  datatype Step =
    // `now()`; redis is consulted only when uncalibrated, and `spawns` says whether the operating
    // system grants a thread if one is asked for
    | Now(at: Time, redis: Option<Time>, readAt: Time, spawns: bool)
    | ReadEnds(redis: Option<Time>, at: Time)   // the thread's read returns or raises
    | SetCalibration                            // under the lock
    | ClearFlag                                 // the `finally`, under the lock

  predicate NeedsRefresh(lastAttempt: Option<Time>, at: Time, interval: Time) {
    lastAttempt.None? || at - lastAttempt.value >= interval
  }

  /** A step whose guard fails, or whose clock would run backwards, does not occur. */
  function Next(st: State, step: Step, interval: Time): State {
    match step
    case Now(at, redis, readAt, spawns) =>
      if at < st.monotonic || readAt < at then st
      else if st.offset.None? then
        if redis.Some? && Trustworthy(redis.value) then
          st.(offset := redis, lastAttempt := Some(readAt), monotonic := readAt)
        else st.(monotonic := readAt)
      else if NeedsRefresh(st.lastAttempt, at, interval) && !st.refreshing then
        var flagged := st.(refreshing := true, lastAttempt := Some(at), monotonic := at);
        if spawns then flagged.(threads := st.threads + [Reading], starts := st.starts + [at])
        else flagged.(stuck := true)
      else st.(monotonic := at)
    case ReadEnds(redis, at) =>
      if |st.threads| == 0 || !st.threads[0].Reading? || at < st.monotonic then st
      else if redis.Some? && Trustworthy(redis.value) then
        st.(threads := [Read(redis.value, at)] + st.threads[1..], monotonic := at)
      else st.(threads := [Clearing] + st.threads[1..], monotonic := at)
    case SetCalibration =>
      if |st.threads| == 0 || !st.threads[0].Read? then st
      else
        st.(offset := Some(st.threads[0].offset), lastAttempt := Some(st.threads[0].at),
            threads := [Clearing] + st.threads[1..])
    case ClearFlag =>
      if |st.threads| == 0 || !st.threads[0].Clearing? then st
      else st.(refreshing := false, threads := st.threads[1..])
  }

  function Run(st: State, steps: seq<Step>, interval: Time): State
    decreases |steps|
  {
    if steps == [] then st else Run(Next(st, steps[0], interval), steps[1..], interval)
  }

  ghost predicate Inv(st: State, interval: Time) {
    && (st.offset.Some? ==> Trustworthy(st.offset.value) && st.lastAttempt.Some?)
    && |st.threads| <= 1
    && (st.refreshing <==> |st.threads| == 1 || st.stuck)
    && (st.stuck ==> st.threads == [])
    && (st.offset.None? ==> st.threads == [] && st.starts == [] && !st.stuck)
    && (st.threads != [] ==> st.starts != [])
    && (|st.threads| == 1 && st.threads[0].Read? ==>
          && Trustworthy(st.threads[0].offset)
          && st.starts[|st.starts| - 1] <= st.threads[0].at <= st.monotonic)
    && (st.lastAttempt.Some? ==> st.lastAttempt.value <= st.monotonic)
    && (st.starts != [] ==> st.starts[|st.starts| - 1] <= st.monotonic)
    && (st.starts != [] ==> st.lastAttempt.Some? && st.starts[|st.starts| - 1] <= st.lastAttempt.value)
    && (forall i :: 0 < i < |st.starts| ==> st.starts[i] - st.starts[i - 1] >= interval)
  }

  lemma NextKeeps(st: State, step: Step, interval: Time)
    requires Inv(st, interval)
    ensures Inv(Next(st, step, interval), interval)
  {
  }

  lemma {:induction false} RunKeeps(st: State, steps: seq<Step>, interval: Time)
    requires Inv(st, interval)
    ensures Inv(Run(st, steps, interval), interval)
    decreases |steps|
  {
    if steps != [] {
      NextKeeps(st, steps[0], interval);
      RunKeeps(Next(st, steps[0], interval), steps[1..], interval);
    }
  }

  /** In every reachable state: an established offset is within the permitted drift, at most one
      background refresh is in flight, the flag is set exactly then if and only if no thread has
      failed to start, and refreshes start an interval apart. */
  lemma ClockIsSafe(steps: seq<Step>, interval: Time)
    ensures
      var st := Run(INIT, steps, interval);
      && (st.offset.Some? ==> -MAX_DRIFT <= st.offset.value <= MAX_DRIFT)
      && |st.threads| <= 1
      && ((st.refreshing <==> |st.threads| == 1) <==> !st.stuck)
      && forall i, j :: 0 <= i < j < |st.starts| && interval >= 0 ==> st.starts[j] - st.starts[i] >= interval
  {
    RunKeeps(INIT, steps, interval);
    var st := Run(INIT, steps, interval);
    forall i, j | 0 <= i < j < |st.starts| && interval >= 0
      ensures st.starts[j] - st.starts[i] >= interval
    {
      StartsApart(st.starts, interval, i, j);
    }
  }

  lemma {:induction false} StartsApart(starts: seq<Time>, interval: Time, i: nat, j: nat)
    requires interval >= 0 && i < j < |starts|
    requires forall k :: 0 < k < |starts| ==> starts[k] - starts[k - 1] >= interval
    ensures starts[j] - starts[i] >= interval
    decreases j
  {
    if i + 1 < j {
      StartsApart(starts, interval, i, j - 1);
    }
  }

  /** Once calibrated, the clock stays calibrated, and only a successful refresh changes its offset. */
  lemma OffsetOnlyRefreshed(steps: seq<Step>, step: Step, interval: Time)
    requires Run(INIT, steps, interval).offset.Some?
    ensures
      var st := Run(INIT, steps, interval);
      var st' := Next(st, step, interval);
      st'.offset == st.offset ||
      (step.SetCalibration? && st.threads != [] && st.threads[0].Read? && st'.offset == Some(st.threads[0].offset))
  {
    RunKeeps(INIT, steps, interval);
  }

  /** In every reachable calibrated state, a reading that is granted a thread starts a refresh if and
      only if none is in flight, none ever failed to start, and an interval has passed since the last
      attempt. */
  lemma ReadingStartsRefreshIff(
    steps: seq<Step>, interval: Time, at: Time, redis: Option<Time>, readAt: Time, spawns: bool)
    requires Run(INIT, steps, interval).offset.Some? && Run(INIT, steps, interval).monotonic <= at <= readAt
    ensures
      var st := Run(INIT, steps, interval);
      var st' := Next(st, Now(at, redis, readAt, spawns), interval);
      && st.lastAttempt.Some?
      && (st'.starts == st.starts + [at] <==>
            spawns && st.threads == [] && !st.stuck && at - st.lastAttempt.value >= interval)
      && (st'.starts == st.starts || (st'.starts == st.starts + [at] && st'.threads == [Reading] && st'.refreshing))
      && st'.offset == st.offset
  {
    RunKeeps(INIT, steps, interval);
  }

  /** While a failed refresh waits to clear the flag, nothing touches the offset or the flag. */
  lemma {:induction false} ClearingHolds(st: State, steps: seq<Step>, interval: Time)
    requires st.threads == [Clearing] && st.refreshing && st.offset.Some? && ClearFlag !in steps
    ensures
      var st' := Run(st, steps, interval);
      && st'.threads == [Clearing] && st'.refreshing
      && st'.offset == st.offset && st'.lastAttempt == st.lastAttempt && st'.starts == st.starts
    decreases |steps|
  {
    if steps != [] {
      assert steps[0] in steps;
      ClearingHolds(Next(st, steps[0], interval), steps[1..], interval);
    }
  }

  lemma {:induction false} RunConcat(st: State, a: seq<Step>, b: seq<Step>, interval: Time)
    ensures Run(st, a + b, interval) == Run(Run(st, a, interval), b, interval)
    decreases |a|
  {
    if a == [] {
      assert [] + b == b;
    } else {
      assert (a + b)[1..] == a[1..] + b;
      RunConcat(Next(st, a[0], interval), a[1..], b, interval);
    }
  }

  /** A refresh that cannot be used, because Redis is unavailable or drifts too far, keeps the old
      offset and ends with the flag clear, whatever readings and stray steps fall before the flag is
      cleared; from then on a reading an interval after the last attempt starts another. */
  lemma FailedRefreshDoesNotBlock(
    steps: seq<Step>, interval: Time, redis: Option<Time>, failedAt: Time, between: seq<Step>,
    at: Time, again: Option<Time>, readAt: Time)
    requires
      var st := Run(INIT, steps, interval);
      && st.threads == [Reading] && failedAt >= st.monotonic
      && (redis.Some? ==> !Trustworthy(redis.value)) && ClearFlag !in between
    ensures
      var st := Run(INIT, steps, interval);
      var failed := Run(INIT, steps + [ReadEnds(redis, failedAt)] + between + [ClearFlag], interval);
      && st.offset.Some? && st.lastAttempt.Some? && failed.offset == st.offset
      && !failed.refreshing && failed.threads == [] && failed.lastAttempt == st.lastAttempt
      && (failed.monotonic <= at <= readAt && at - st.lastAttempt.value >= interval ==>
            var next := Next(failed, Now(at, again, readAt, true), interval);
            next.starts == st.starts + [at] && next.refreshing && next.threads == [Reading])
  {
    RunKeeps(INIT, steps, interval);
    var st := Run(INIT, steps, interval);
    var ended := Next(st, ReadEnds(redis, failedAt), interval);
    ClearingHolds(ended, between, interval);
    RunConcat(INIT, steps, [ReadEnds(redis, failedAt)], interval);
    RunConcat(INIT, steps + [ReadEnds(redis, failedAt)], between, interval);
    RunConcat(INIT, steps + [ReadEnds(redis, failedAt)] + between, [ClearFlag], interval);
    RunOne(st, ReadEnds(redis, failedAt), interval);
    RunOne(Run(ended, between, interval), ClearFlag, interval);
  }

  lemma RunOne(st: State, step: Step, interval: Time)
    ensures Run(st, [step], interval) == Next(st, step, interval)
  {
    assert [step][1..] == [];
  }

  // ---- Where the offset comes from ----

  /** Redis gave this offset in answer to some step. */
  predicate Heard(steps: seq<Step>, offset: Time) {
    exists s :: s in steps && (s.Now? || s.ReadEnds?) && s.redis == Some(offset)
  }

  ghost predicate FromRedis(st: State, steps: seq<Step>) {
    && (st.offset.Some? ==> Heard(steps, st.offset.value))
    && (st.threads != [] && st.threads[0].Read? ==> Heard(steps, st.threads[0].offset))
  }

  lemma HeardStep(st: State, steps: seq<Step>, step: Step, interval: Time)
    requires Inv(st, interval) && FromRedis(st, steps)
    ensures FromRedis(Next(st, step, interval), steps + [step])
  {
    assert step in steps + [step] && forall s :: s in steps ==> s in steps + [step];
    assert forall o :: Heard(steps, o) ==> Heard(steps + [step], o);
  }

  /** An established offset is one Redis reported in answer to a step of the run. */
  lemma {:induction false} OffsetIsReported(steps: seq<Step>, interval: Time)
    ensures FromRedis(Run(INIT, steps, interval), steps)
    decreases |steps|
  {
    if steps != [] {
      var before, last := steps[..|steps| - 1], steps[|steps| - 1];
      assert steps == before + [last];
      OffsetIsReported(before, interval);
      RunKeeps(INIT, before, interval);
      RunConcat(INIT, before, [last], interval);
      RunOne(Run(INIT, before, interval), last, interval);
      HeardStep(Run(INIT, before, interval), before, last, interval);
    }
  }

  /** The first reading calibrates the clock with what Redis says, exactly if that lies within the drift
      bound. */
  lemma FirstReadingCalibrates(st: State, at: Time, redis: Option<Time>, readAt: Time, spawns: bool, interval: Time)
    requires st.offset.None? && st.monotonic <= at <= readAt
    ensures
      var st' := Next(st, Now(at, redis, readAt, spawns), interval);
      && (st'.offset.Some? <==> redis.Some? && -180_000_000 <= redis.value <= 180_000_000)
      && (st'.offset.Some? ==> st'.offset == redis && st'.lastAttempt == Some(readAt))
      && (st'.offset.None? ==> st'.lastAttempt == st.lastAttempt)
  {
  }

  lemma {:induction false} ReadHolds(st: State, steps: seq<Step>, interval: Time)
    requires |st.threads| == 1 && st.threads[0].Read? && st.refreshing && st.offset.Some? && SetCalibration !in steps
    ensures Run(st, steps, interval).threads == st.threads && Run(st, steps, interval).offset == st.offset
    decreases |steps|
  {
    if steps != [] {
      assert steps[0] in steps;
      ReadHolds(Next(st, steps[0], interval), steps[1..], interval);
    }
  }

  /** A refresh whose reading can be used installs exactly that reading, and the instant it was made,
      whatever readings fall before it does. */
  lemma RefreshInstalls(steps: seq<Step>, interval: Time, offset: Time, at: Time, between: seq<Step>)
    requires
      var st := Run(INIT, steps, interval);
      && st.threads == [Reading] && at >= st.monotonic
      && -180_000_000 <= offset <= 180_000_000 && SetCalibration !in between
    ensures
      var refreshed := Run(INIT, steps + [ReadEnds(Some(offset), at)] + between + [SetCalibration], interval);
      refreshed.offset == Some(offset) && refreshed.lastAttempt == Some(at)
  {
    RunKeeps(INIT, steps, interval);
    var st := Run(INIT, steps, interval);
    var ended := Next(st, ReadEnds(Some(offset), at), interval);
    ReadHolds(ended, between, interval);
    RunConcat(INIT, steps, [ReadEnds(Some(offset), at)], interval);
    RunConcat(INIT, steps + [ReadEnds(Some(offset), at)], between, interval);
    RunConcat(INIT, steps + [ReadEnds(Some(offset), at)] + between, [SetCalibration], interval);
    RunOne(st, ReadEnds(Some(offset), at), interval);
    RunOne(Run(ended, between, interval), SetCalibration, interval);
  }

  // ---- A thread that fails to start ----

  /** Some continuation starts another refresh. */
  ghost predicate CanRefresh(st: State, interval: Time) {
    exists steps: seq<Step> :: |Run(st, steps, interval).starts| > |st.starts|
  }

  lemma {:induction false} StuckForever(st: State, steps: seq<Step>, interval: Time)
    requires st.stuck && st.refreshing && st.threads == [] && st.offset.Some?
    ensures Run(st, steps, interval).starts == st.starts
    decreases |steps|
  {
    if steps != [] {
      StuckForever(Next(st, steps[0], interval), steps[1..], interval);
    }
  }

  lemma CanRefreshLater(st: State, step: Step, interval: Time)
    requires CanRefresh(Next(st, step, interval), interval) && Next(st, step, interval).starts == st.starts
    ensures CanRefresh(st, interval)
  {
    var later := Next(st, step, interval);
    var steps: seq<Step> :| |Run(later, steps, interval).starts| > |later.starts|;
    var longer := [step] + steps;
    assert longer[1..] == steps;
    assert |Run(st, longer, interval).starts| > |st.starts|;
  }

  /** How many steps a refresh still needs before another may start. */
  function StepsLeft(st: State): nat {
    if st.offset.None? then 1
    else if st.threads == [] then 0
    else match st.threads[0]
      case Reading => 3
      case Read(_, _) => 2
      case Clearing => 1
  }

  lemma UnstuckRefreshes(st: State, interval: Time)
    requires Inv(st, interval) && !st.stuck
    ensures CanRefresh(st, interval)
    decreases StepsLeft(st)
  {
    var m := st.monotonic;
    if StepsLeft(st) == 0 {
      var due := st.lastAttempt.value + interval;
      var at := if due > m then due else m;
      RunOne(st, Now(at, None, at, true), interval);
      assert |Run(st, [Now(at, None, at, true)], interval).starts| > |st.starts|;
    } else {
      var step :=
        if st.offset.None? then Now(m, Some(0), m, true)
        else match st.threads[0]
          case Reading => ReadEnds(Some(0), m)
          case Read(_, _) => SetCalibration
          case Clearing => ClearFlag;
      NextKeeps(st, step, interval);
      UnstuckRefreshes(Next(st, step, interval), interval);
      CanRefreshLater(st, step, interval);
    }
  }

  /** Refreshing can always go on, whatever failed, unless a thread failed to start: the flag is set
      before the start, nothing clears it, and no refresh ever starts again. */
  lemma RefreshGoesOnIff(steps: seq<Step>, interval: Time)
    ensures CanRefresh(Run(INIT, steps, interval), interval) <==> !Run(INIT, steps, interval).stuck
  {
    RunKeeps(INIT, steps, interval);
    var st := Run(INIT, steps, interval);
    if st.stuck {
      forall more: seq<Step> ensures Run(st, more, interval).starts == st.starts {
        StuckForever(st, more, interval);
      }
    } else {
      UnstuckRefreshes(st, interval);
    }
  }

  /** Such a run: calibrated at 0, and the thread due at instant 10 is refused. */
  lemma StuckReachable()
    ensures Run(INIT, [Now(0, Some(0), 0, true), Now(10, None, 10, false)], 10).stuck
  {
    var steps := [Now(0, Some(0), 0, true), Now(10, None, 10, false)];
    assert steps[1..] == [steps[1]];
    RunOne(Next(INIT, steps[0], 10), steps[1], 10);
  }

  /** `RedisQueueClock`, each method one locked block. */
  class RedisQueueClock {
    const interval: Time
    var offset: Option<Time>
    var lastRefreshAttempt: Option<Time>
    var refreshing: bool
    ghost var threads: seq<Refresh>
    ghost var starts: seq<Time>
    ghost var stuck: bool
    ghost var monotonic: Time

    ghost function View(): State
      reads this
    {
      State(offset, lastRefreshAttempt, refreshing, threads, starts, stuck, monotonic)
    }

    /** Holds of every object: true of `INIT` and kept by every step. */
    ghost predicate Valid()
      reads this
    {
      Inv(View(), interval)
    }

    constructor (interval: Time)
      ensures Valid() && View() == INIT && this.interval == interval
    {
      this.interval := interval;
      offset, lastRefreshAttempt, refreshing := None, None, false;
      threads, starts, stuck, monotonic := [], [], false, 0;
    }

    /** `now`: the calibrated instant, or None where the code raises: `QueueClockError`, or whatever
        `Thread.start` does. */
    method Now(utcnow: Time, at: Time, redis: Option<Time>, readAt: Time, spawns: bool) returns (r: Option<Time>)
      requires Valid() && monotonic <= at <= readAt
      modifies this
      ensures Valid() && View() == Next(old(View()), Step.Now(at, redis, readAt, spawns), interval)
      ensures r == if offset.Some? && (stuck ==> old(stuck)) then Some(utcnow + offset.value) else None
    {
      NextKeeps(View(), Step.Now(at, redis, readAt, spawns), interval);
      assert stuck ==> refreshing;
      hide Inv;
      monotonic := at;
      if offset.None? {
        monotonic := readAt;
        if redis.None? || redis.value > MAX_DRIFT || redis.value < -MAX_DRIFT {
          return None;
        }
        offset, lastRefreshAttempt := redis, Some(readAt);
      } else if (lastRefreshAttempt.None? || at - lastRefreshAttempt.value >= interval) && !refreshing {
        refreshing := true;
        lastRefreshAttempt := Some(at);
        if !spawns {
          stuck := true;
          return None;
        }
        threads := threads + [Reading];
        starts := starts + [at];
      }
      r := Some(utcnow + offset.value);
    }

    /** `_read_calibration` in the background thread: None where it raises `QueueClockError`. */
    method ReadEnds(redis: Option<Time>, at: Time) returns (calibration: Option<(Time, Time)>)
      requires Valid() && |threads| > 0 && threads[0].Reading? && monotonic <= at
      modifies this
      ensures Valid() && View() == Next(old(View()), Step.ReadEnds(redis, at), interval)
      ensures |threads| > 0
      ensures match calibration
              case None => threads[0] == Clearing
              case Some((read, readAt)) => threads[0] == Read(read, readAt) && -MAX_DRIFT <= read <= MAX_DRIFT
    {
      NextKeeps(View(), Step.ReadEnds(redis, at), interval);
      monotonic := at;
      if redis.None? || redis.value > MAX_DRIFT || redis.value < -MAX_DRIFT {
        threads := [Clearing] + threads[1..];
        return None;
      }
      threads := [Read(redis.value, at)] + threads[1..];
      calibration := Some((redis.value, at));
    }

    /** The success branch of `_refresh_in_background`. */
    method SetCalibration(read: Time, at: Time)
      requires Valid() && |threads| > 0 && threads[0] == Read(read, at)
      modifies this
      ensures Valid() && View() == Next(old(View()), Step.SetCalibration, interval)
    {
      NextKeeps(View(), Step.SetCalibration, interval);
      offset := Some(read);
      lastRefreshAttempt := Some(at);
      threads := [Clearing] + threads[1..];
    }

    /** The `finally` of `_refresh_in_background`. */
    method ClearRefreshing()
      requires Valid() && |threads| > 0 && threads[0].Clearing?
      modifies this
      ensures Valid() && View() == Next(old(View()), Step.ClearFlag, interval)
    {
      NextKeeps(View(), Step.ClearFlag, interval);
      refreshing := false;
      threads := threads[1..];
    }
  }
}
