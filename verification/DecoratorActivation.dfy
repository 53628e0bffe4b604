/**
 Activation and cancellation of one decorator-registered observer, by any number of threads.

 Each lock-protected block of `_activate_pending_for` and `DecoratorSubscription.unsubscribe` is one
 step; registration itself happens between blocks, as in the code.
 */
module DecoratorActivation {
  import opened Prelude

  type Sub = nat

  /** An activation attempt past its check-and-set. */
  datatype Attempt =
    | Registering                              // inside `_register_now`
    | Registered(sub: Sub)                     // returned, before the `finally` block
    | Closing(sub: Sub, cancelled: bool)       // after it, before the possible teardown

  datatype State = State(
    cancelled: bool, activating: bool, subscription: Option<Sub>,
    live: set<Sub>,                 // subscriptions whose registration is still in place
    attempts: map<nat, Attempt>,
    unsubscribing: map<nat, Sub>,   // `unsubscribe` calls past the lock
    created: set<Sub>,              // history: every subscription ever made
    asked: bool,                    // history: `unsubscribe` has been called
    holder: Option<nat>)            // history: the attempt that set `activating`

  const INIT := State(false, false, None, {}, map[], map[], {}, false, None)

  datatype Step =
    | Begin(a: nat)
    | RegisterOk(a: nat, sub: Sub)
    | RegisterFails(a: nat)
    | Finish(a: nat)
    | Close(a: nat)
    | Unsubscribe(u: nat)
    | UnsubscribeEnds(u: nat)

  /** The check under the lock; a re-entrant or racing attempt finds a flag set and does nothing. */
  predicate MayBegin(cancelled: bool, activating: bool, subscription: Option<Sub>) {
    !cancelled && !activating && subscription.None?
  }

  function Next(st: State, step: Step): State {
    match step
    case Begin(a) =>
      if a in st.attempts || !MayBegin(st.cancelled, st.activating, st.subscription) then st
      else st.(activating := true, attempts := st.attempts[a := Registering], holder := Some(a))
    case RegisterOk(a, sub) =>
      if a !in st.attempts || !st.attempts[a].Registering? || sub in st.created then st
      else st.(attempts := st.attempts[a := Registered(sub)], live := st.live + {sub}, created := st.created + {sub})
    case RegisterFails(a) =>
      if a !in st.attempts || !st.attempts[a].Registering? then st
      else st.(activating := false, attempts := st.attempts - {a}, holder := None)
    case Finish(a) =>
      if a !in st.attempts || !st.attempts[a].Registered? then st
      else st.(activating := false, subscription := Some(st.attempts[a].sub), holder := None,
               attempts := st.attempts[a := Closing(st.attempts[a].sub, st.cancelled)])
    case Close(a) =>
      if a !in st.attempts || !st.attempts[a].Closing? then st
      else st.(live := if st.attempts[a].cancelled then st.live - {st.attempts[a].sub} else st.live,
               attempts := st.attempts - {a})
    case Unsubscribe(u) =>
      if u in st.unsubscribing then st
      else if st.subscription.None? then st.(cancelled := true, asked := true)
      else st.(unsubscribing := st.unsubscribing[u := st.subscription.value], asked := true)
    case UnsubscribeEnds(u) =>
      if u !in st.unsubscribing then st
      else st.(live := st.live - {st.unsubscribing[u]}, unsubscribing := st.unsubscribing - {u})
  }

  function Run(st: State, steps: seq<Step>): State
    decreases |steps|
  {
    if steps == [] then st else Run(Next(st, steps[0]), steps[1..])
  }

  predicate Open(t: Attempt) { !t.Closing? }

  /** A subscription someone has undertaken to tear down. */
  ghost predicate Doomed(st: State, s: Sub) {
    || (exists a :: a in st.attempts && st.attempts[a] == Closing(s, true))
    || (exists u :: u in st.unsubscribing && st.unsubscribing[u] == s)
  }

  ghost predicate Inv(st: State) {
    && (st.activating <==> st.holder.Some?)
    && (st.holder.Some? ==> st.holder.value in st.attempts && Open(st.attempts[st.holder.value]))
    && (forall a :: a in st.attempts && Open(st.attempts[a]) ==> st.holder == Some(a))
    && (forall a :: a in st.attempts && st.attempts[a].Closing? ==> st.subscription == Some(st.attempts[a].sub))
    && (st.subscription.Some? ==> !st.activating && st.created == {st.subscription.value})
    && (st.subscription.None? && !st.activating ==> st.created == {})
    && (st.activating ==>
          st.created == (if st.attempts[st.holder.value].Registered? then {st.attempts[st.holder.value].sub} else {}))
    && st.live <= st.created
    && (st.asked && st.subscription.None? ==> st.cancelled)
    && (!st.asked ==> !st.cancelled && st.live == st.created && st.unsubscribing == map[])
    && (!st.asked ==> forall a :: a in st.attempts && st.attempts[a].Closing? ==> !st.attempts[a].cancelled)
    && (st.asked && st.subscription.Some? && st.subscription.value in st.live ==> Doomed(st, st.subscription.value))
  }

  lemma NextKeeps(st: State, step: Step)
    requires Inv(st)
    ensures Inv(Next(st, step))
  {
    var st' := Next(st, step);
    if st'.asked && st'.subscription.Some? && st'.subscription.value in st'.live {
      var s := st'.subscription.value;
      match step
      case Finish(a) => if st' != st { assert st'.attempts[a] == Closing(s, true); }
      case Unsubscribe(u) => if u !in st.unsubscribing { assert st'.unsubscribing[u] == s; }
      case _ =>
      if !step.Finish? && !step.Unsubscribe? {
        if a :| a in st.attempts && st.attempts[a] == Closing(s, true) {
          assert a in st'.attempts && st'.attempts[a] == Closing(s, true);
        } else {
          var u :| u in st.unsubscribing && st.unsubscribing[u] == s;
          assert u in st'.unsubscribing && st'.unsubscribing[u] == s;
        }
      }
    }
  }

  lemma {:induction false} RunKeeps(st: State, steps: seq<Step>)
    requires Inv(st)
    ensures Inv(Run(st, steps))
    decreases |steps|
  {
    if steps != [] {
      NextKeeps(st, steps[0]);
      RunKeeps(Next(st, steps[0]), steps[1..]);
    }
  }

  /** However activation attempts, re-entrant ones included, failures and unsubscribes interleave,
      at most one subscription is ever made, so at most one is live. */
  lemma AtMostOneSubscription(steps: seq<Step>)
    ensures |Run(INIT, steps).created| <= 1
    ensures Run(INIT, steps).live <= Run(INIT, steps).created
  {
    RunKeeps(INIT, steps);
    var st := Run(INIT, steps);
    assert st.created == {} || exists s :: st.created == {s};
  }

  predicate Unsubscribes(steps: seq<Step>) { exists s :: s in steps && s.Unsubscribe? }

  lemma AskedStep(st: State, step: Step)
    requires Inv(st)
    ensures Next(st, step).asked <==> st.asked || step.Unsubscribe?
  {
  }

  lemma {:induction false} AskedIff(st: State, steps: seq<Step>)
    requires Inv(st)
    ensures Run(st, steps).asked <==> st.asked || Unsubscribes(steps)
    decreases |steps|
  {
    if steps != [] {
      hide Inv, Next;
      NextKeeps(st, steps[0]);
      AskedStep(st, steps[0]);
      AskedIff(Next(st, steps[0]), steps[1..]);
      assert steps == [steps[0]] + steps[1..];
      assert Unsubscribes(steps) <==> steps[0].Unsubscribe? || Unsubscribes(steps[1..]);
    }
  }

  /** Once `unsubscribe` has been called and no activation or teardown is in flight, none is live. */
  lemma UnsubscribedStaysDown(steps: seq<Step>)
    requires
      var st := Run(INIT, steps);
      Unsubscribes(steps) && st.attempts == map[] && st.unsubscribing == map[]
    ensures Run(INIT, steps).live == {}
  {
    RunKeeps(INIT, steps);
    AskedIff(INIT, steps);
    var st := Run(INIT, steps);
    assert st.subscription.Some? ==> st.live <= {st.subscription.value};
  }

  /** ... and a cancelled registration is never activated again. */
  lemma CancelledNeverBegins(steps: seq<Step>, a: nat)
    requires Unsubscribes(steps)
    ensures Next(Run(INIT, steps), Begin(a)) == Run(INIT, steps)
  {
    RunKeeps(INIT, steps);
    AskedIff(INIT, steps);
  }

  /** A fresh attempt begins exactly if nobody has unsubscribed, nothing was ever registered and no other
      attempt is on its way there. */
  lemma BeginsIff(steps: seq<Step>, a: nat)
    requires a !in Run(INIT, steps).attempts
    ensures
      var st := Run(INIT, steps);
      var st' := Next(st, Begin(a));
      && (a in st'.attempts <==>
            !Unsubscribes(steps) && st.created == {} && forall b :: b in st.attempts ==> !Open(st.attempts[b]))
      && (a in st'.attempts ==> st'.attempts[a] == Registering && st'.activating)
      && (a !in st'.attempts ==> st' == st)
  {
    RunKeeps(INIT, steps);
    AskedIff(INIT, steps);
  }

  /** Once a registration has succeeded and all attempts are over, exactly one subscription is live as long
      as nobody has unsubscribed. */
  lemma RegisteredStaysLive(steps: seq<Step>)
    requires
      var st := Run(INIT, steps);
      !Unsubscribes(steps) && st.created != {} && st.attempts == map[]
    ensures
      var st := Run(INIT, steps);
      |st.live| == 1 && st.subscription.Some? && st.live == {st.subscription.value}
  {
    RunKeeps(INIT, steps);
    AskedIff(INIT, steps);
    var st := Run(INIT, steps);
    assert st.subscription.Some?;
  }

  /** `_PendingRegistration` and the blocks that touch it, each one step of the protocol above. The
      live subscriptions stand for the registrations the observers module holds; `a` and `u` name the
      activation attempt or unsubscribe call a block belongs to, and what such a call keeps in its
      local variables is passed in. */
  class PendingRegistration {
    var cancelled: bool
    var activating: bool
    var subscription: Option<Sub>
    var live: set<Sub>
    ghost var attempts: map<nat, Attempt>
    ghost var unsubscribing: map<nat, Sub>
    ghost var created: set<Sub>
    ghost var asked: bool
    ghost var holder: Option<nat>

    ghost function View(): State
      reads this
    {
      State(cancelled, activating, subscription, live, attempts, unsubscribing, created, asked, holder)
    }

    constructor ()
      ensures View() == INIT
    {
      cancelled, activating, subscription, live := false, false, None, {};
      attempts, unsubscribing, created, asked, holder := map[], map[], {}, false, None;
    }

    /** The check-and-set of `activating`. */
    method TryBegin(a: nat) returns (won: bool)
      requires a !in attempts
      modifies this
      ensures View() == Next(old(View()), Begin(a))
      ensures won <==> a in attempts
    {
      if cancelled || activating || subscription.Some? {
        return false;
      }
      activating := true;
      attempts, holder := attempts[a := Registering], Some(a);
      won := true;
    }

    /** `_register_now` returns a new subscription. */
    method RegisterNow(a: nat, sub: Sub)
      requires a in attempts && attempts[a].Registering? && sub !in created
      modifies this
      ensures View() == Next(old(View()), RegisterOk(a, sub))
      ensures attempts == old(attempts)[a := Registered(sub)]
    {
      live := live + {sub};
      attempts, created := attempts[a := Registered(sub)], created + {sub};
    }

    /** The `finally` block; `made` is None when registration raised. The caller tears the new
        subscription down exactly when told to, which `Close` then does. */
    method Finish(a: nat, made: Option<Sub>) returns (tearDown: bool)
      requires a in attempts
      requires attempts[a] == if made.Some? then Registered(made.value) else Registering
      modifies this
      ensures View() == Next(old(View()), if made.Some? then Step.Finish(a) else RegisterFails(a))
      ensures made.Some? ==> a in attempts && attempts[a] == Closing(made.value, tearDown)
      ensures made.None? ==> !tearDown && a !in attempts
    {
      activating, holder := false, None;
      if made.Some? {
        subscription := made;
        attempts := attempts[a := Closing(made.value, cancelled)];
      } else {
        attempts := attempts - {a};
      }
      tearDown := cancelled && made.Some?;
    }

    /** The end of an activation, with the teardown it may owe. */
    method Close(a: nat, made: Sub, tearDown: bool)
      requires a in attempts && attempts[a] == Closing(made, tearDown)
      modifies this
      ensures View() == Next(old(View()), Step.Close(a))
    {
      if tearDown {
        live := live - {made};
      }
      attempts := attempts - {a};
    }

    /** The block of `unsubscribe`; what it returns still has to be ended. */
    method Unsubscribe(u: nat) returns (toEnd: Option<Sub>)
      requires u !in unsubscribing
      modifies this
      ensures View() == Next(old(View()), Step.Unsubscribe(u))
      ensures toEnd == if u in unsubscribing then Some(unsubscribing[u]) else None
    {
      asked := true;
      if subscription.None? {
        cancelled := true;
        return None;
      }
      toEnd := subscription;
      unsubscribing := unsubscribing[u := subscription.value];
    }

    /** The delegated `unsubscribe` of the real subscription. */
    method EndUnsubscribe(u: nat, sub: Sub)
      requires u in unsubscribing && unsubscribing[u] == sub
      modifies this
      ensures View() == Next(old(View()), UnsubscribeEnds(u))
    {
      live := live - {sub};
      unsubscribing := unsubscribing - {u};
    }
  }
}
