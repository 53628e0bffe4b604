/**
 What observers are promised, told by the calls made: who registered, what was published since, which
 retained records the bootstrap listed, and who has unsubscribed.
 */
module ObserverRuns {
  import opened Prelude
  import opened Observers
  import opened ObserverDelivery

  // ---- What the calls of a run amount to ----

  /** Every entry published, in order; the k-th publication has number k. */
  function Publications(steps: seq<Step>): seq<Entry> {
    if steps == [] then []
    else
      var before, last := Publications(steps[..|steps| - 1]), steps[|steps| - 1];
      if last.Publish? then before + [last.entry] else before
  }

  /** One observer's standing: its filter, the publications made before it registered, whether it has
      not unsubscribed, and the records its bootstrap listed. */
  datatype Standing =
    | Absent
    | Registered(entryId: Option<Id>, since: nat, active: bool, listed: Option<seq<Entry>>)

  /** How a call changes it, `n` publications having been made so far. */
  function StandingAfter(before: Standing, step: Step, r: RegId, n: nat): Standing {
    match step
    case Register(x, entryId) => if x == r && before.Absent? then Registered(entryId, n, true, None) else before
    case Unregister(x) => if x == r && before.Registered? then before.(active := false) else before
    case Activate(x, listed) =>
      if x == r && before.Registered? && before.listed.None? then before.(listed := Some(listed)) else before
    case _ => before
  }

  function StandingOf(steps: seq<Step>, r: RegId): Standing {
    if steps == [] then Absent
    else
      var earlier := steps[..|steps| - 1];
      StandingAfter(StandingOf(earlier, r), steps[|steps| - 1], r, |Publications(earlier)|)
  }

  ghost predicate Numbered(st: State, published: seq<Entry>) {
    && st.sequence == |published|
    && (forall s :: s in st.published <==> 1 <= s <= |published|)
    && (forall s :: s in st.published ==> st.published[s] == published[s - 1])
  }

  ghost predicate Stands(st: State, standing: Standing, r: RegId) {
    && (r in st.regs <==> standing.Registered?)
    && (r in st.regs ==>
          && st.regs[r].entryId == standing.entryId && st.regs[r].startedAt == standing.since
          && st.regs[r].active == standing.active && (st.regs[r].initialising <==> standing.listed.None?))
    && (r in st.listed <==> standing.Registered? && standing.listed.Some?)
    && (r in st.listed ==> standing.Registered? && standing.listed == Some(st.listed[r]))
  }

  lemma {:induction false} RunSnoc(st: State, steps: seq<Step>, step: Step)
    ensures Run(st, steps + [step]) == Next(Run(st, steps), step)
    decreases |steps|
  {
    if steps == [] {
      assert ([] + [step])[1..] == [];
    } else {
      assert (steps + [step])[1..] == steps[1..] + [step];
      RunSnoc(Next(st, steps[0]), steps[1..], step);
    }
  }

  predicate ChangesStanding(step: Step) {
    step.Register? || step.Unregister? || step.Activate? || step.Publish?
  }

  lemma OtherSteps(st: State, step: Step)
    requires !ChangesStanding(step)
    ensures
      var st' := Next(st, step);
      st' == st.(events := st'.events, flights := st'.flights, activating := st'.activating,
                 dispatcher := st'.dispatcher, delivered := st'.delivered, dropped := st'.dropped)
  {
    match step
    case TestNext(s) =>
    case QueueLive(s) =>
    case QueueBoot(x) =>
    case Get =>
    case TakeRegistrations =>
    case Visit =>
  }

  lemma NumberedStep(st: State, step: Step, published: seq<Entry>)
    requires Numbered(st, published)
    ensures Numbered(Next(st, step), if step.Publish? then published + [step.entry] else published)
  {
    if !ChangesStanding(step) {
      hide Next;
      OtherSteps(st, step);
    }
  }

  lemma StandsStep(st: State, step: Step, steps: seq<Step>, r: RegId)
    requires st.sequence == |Publications(steps)| && Stands(st, StandingOf(steps, r), r)
    ensures Stands(Next(st, step), StandingOf(steps + [step], r), r)
  {
    assert (steps + [step])[..|steps|] == steps;
    if ChangesStanding(step) {
      StandingStep(st, step, StandingOf(steps, r), r, |Publications(steps)|);
    } else {
      hide Next;
      OtherSteps(st, step);
    }
  }

  lemma StandingStep(st: State, step: Step, before: Standing, r: RegId, n: nat)
    requires ChangesStanding(step) && st.sequence == n && Stands(st, before, r)
    ensures Stands(Next(st, step), StandingAfter(before, step, r, n), r)
  {
  }

  /** The stores say of every publication and every observer what the calls amount to. */
  lemma {:induction false} RunIs(steps: seq<Step>, r: RegId)
    ensures Numbered(Run(INIT, steps), Publications(steps)) && Stands(Run(INIT, steps), StandingOf(steps, r), r)
    decreases |steps|
  {
    if steps != [] {
      var earlier, last := steps[..|steps| - 1], steps[|steps| - 1];
      assert steps == earlier + [last];
      RunIs(earlier, r);
      RunSnoc(INIT, earlier, last);
      NumberedStep(Run(INIT, earlier), last, Publications(earlier));
      StandsStep(Run(INIT, earlier), last, earlier, r);
    }
  }

  // ---- Publications ----

  predicate Interested(standing: Standing, e: Entry) {
    standing.Registered? && standing.active && (standing.entryId.None? || standing.entryId.value == e.id)
  }

  /** The k-th publication, made after `r` registered, is delivered to `r` at most once; and once all is
      quiet exactly once, if `r` is still subscribed and interested and that delivery was not dropped
      on a full queue. */
  lemma PublicationsReach(steps: seq<Step>, r: RegId, k: nat)
    requires StandingOf(steps, r).Registered? && StandingOf(steps, r).since < k <= |Publications(steps)|
    ensures
      var st, m := Run(INIT, steps), Snapshot(Publications(steps)[k - 1], k);
      && r in st.regs
      && Count(st.delivered, (r, m)) <= 1
      && (Interested(StandingOf(steps, r), m.entry) && Settled(st, r, m)
          && Live(m) !in st.dropped && Boot(m, r) !in st.dropped ==>
            Count(st.delivered, (r, m)) == 1)
  {
    RunIs(steps, r);
    var st, m := Run(INIT, steps), Snapshot(Publications(steps)[k - 1], k);
    assert k in st.published;
    DeliveredAtMostOnce(steps, r, m);
    if Interested(StandingOf(steps, r), m.entry) && Settled(st, r, m)
       && Live(m) !in st.dropped && Boot(m, r) !in st.dropped {
      DeliveredExactlyOnce(steps, r, m);
    }
  }
}
