/** Whole runs from boot: two guards, either of which keeps the invariant in every state. */
module SafeRuns {
  import opened Sequences
  import opened SemaphoreLists
  import opened NucleusState
  import opened NucleusSteps
  import opened Runs

  ghost predicate Used(used: set<int>, events: seq<Event>) {
    forall n :: 0 <= n < |events| && Target(events[n]).Some? ==> Target(events[n]).value in used
  }

  ghost function Times(events: seq<Event>, e: Event): nat { multiset(events)[e] }

  /** No device ever raised more interrupts than waits were issued on it. */
  ghost predicate Solicited(events: seq<Event>) {
    forall n, i: nat :: 0 <= n <= |events| ==> Times(events[..n], Device(i)) <= Times(events[..n], WaitIo(i))
  }

  /** Device semaphores count interrupts against waits. */
  ghost predicate Ledger(s: Nucleus, past: seq<Event>) {
    forall i: nat :: i < 48 && DeviceSem(i) in s.sem ==>
      s.sem[DeviceSem(i)] == Times(past, Device(i)) - Times(past, WaitIo(i))
  }

  lemma BlockWithin(s: Nucleus, a: int, used: set<int>)
    requires Ascending(s.blocked.descs) && Within(s, used) && s.current.Some? && a in used
    ensures Within(Block(s, a), used)
  {
    forall b | Active(Block(s, a).blocked, b) ensures b in used {
      InsertIsAppend(s.blocked, a, s.current.value, b);
    }
  }

  lemma ReleaseWithin(s: Nucleus, a: int, used: set<int>)
    requires Ascending(s.blocked.descs) && Within(s, used)
    ensures Within(Release(s, a), used) && Ascending(Release(s, a).blocked.descs)
  {
    RemoveIsTail(s.blocked, a, a);
    forall b | Active(Release(s, a).blocked, b) ensures b in used {
      RemoveIsTail(s.blocked, a, b);
    }
  }

  lemma ReapedWithin(s: Nucleus, gone: set<Pid>, t: Nucleus, used: set<int>)
    requires Ascending(s.blocked.descs) && Within(s, used) && Reaped(s, gone, t)
    ensures Within(t, used)
  {
    forall b | Active(t.blocked, b) ensures b in used {
      WithoutAllQueue(s.blocked, gone, b);
    }
  }

  lemma SameListWithin(s: Nucleus, t: Nucleus, used: set<int>)
    requires Within(s, used) && t.blocked == s.blocked
    ensures Within(t, used)
  {
    forall b | Active(t.blocked, b) ensures b in used { assert Active(s.blocked, b); }
  }

  lemma StepWithin(s: Nucleus, e: Event, t: Nucleus, used: set<int>)
    requires Ascending(s.blocked.descs) && Step(s, e, t) && Within(s, used)
    requires Target(e).Some? ==> Target(e).value in used
    ensures Within(t, used)
  {
    if Target(e).Some? {
      SleepWithin(s, Target(e).value, t, used);
    } else if e.V? {
      WakeWithin(s, e.a, t, used);
    } else if e.Device? {
      WakeWithin(s, DeviceSem(e.i), t, used);
    } else if e.Terminate? {
      var gone, reaped :| Dies(s, gone, reaped) && t == Schedule(reaped);
      ReapedWithin(s, gone, reaped, used);
      SameListWithin(reaped, t, used);
    } else if e.Tick? {
      DrainWithin(s, used);
      SameListWithin(Drain(s, CLOCK), t, used);
    } else {
      SameListWithin(s, t, used);
    }
  }

  lemma SleepWithin(s: Nucleus, a: int, t: Nucleus, used: set<int>)
    requires Ascending(s.blocked.descs) && Within(s, used) && a in used && s.current.Some? && a in s.sem
    requires t.blocked == s.blocked || t.blocked == Block(Add(s, a, -1), a).blocked
    ensures Within(t, used)
  {
    SameListWithin(s, Add(s, a, -1), used);
    BlockWithin(Add(s, a, -1), a, used);
    SameListWithin(if t.blocked == s.blocked then s else Block(Add(s, a, -1), a), t, used);
  }

  lemma WakeWithin(s: Nucleus, a: int, t: Nucleus, used: set<int>)
    requires Ascending(s.blocked.descs) && Within(s, used) && a in s.sem
    requires t.blocked == s.blocked || t.blocked == Release(Add(s, a, 1), a).blocked
    ensures Within(t, used)
  {
    SameListWithin(s, Add(s, a, 1), used);
    ReleaseWithin(Add(s, a, 1), a, used);
    SameListWithin(if t.blocked == s.blocked then s else Release(Add(s, a, 1), a), t, used);
  }

  lemma {:induction false} DrainWithin(s: Nucleus, used: set<int>)
    requires Ascending(s.blocked.descs) && Within(s, used)
    ensures Within(Drain(s, CLOCK), used)
    decreases |QueueOf(s.blocked, CLOCK)|
  {
    if QueueOf(s.blocked, CLOCK) != [] {
      RemoveIsTail(s.blocked, CLOCK, CLOCK);
      ReleaseWithin(s, CLOCK, used);
      SameListWithin(Release(s, CLOCK), Unwait(Release(s, CLOCK)), used);
      DrainWithin(Unwait(Release(s, CLOCK)), used);
    }
  }

  /** Only a wait and an interrupt of its own touch a device semaphore other than the clock. */
  lemma StepLedger(s: Nucleus, e: Event, t: Nucleus, i: nat)
    requires Step(s, e, t) && i < 48 && DeviceSem(i) in s.sem
    ensures DeviceSem(i) in t.sem
    ensures t.sem[DeviceSem(i)] - s.sem[DeviceSem(i)] == if e == Device(i) then 1 else if e == WaitIo(i) then -1 else 0
  {
    if e.Terminate? {
      DeathSem(s, t);
    } else {
      StepSem(s, e, t);
    }
  }

  lemma StepKeepsWords(s: Nucleus, e: Event, t: Nucleus)
    requires CLOCK in s.sem && Step(s, e, t)
    ensures t.sem.Keys == s.sem.Keys
  {
    if e.Terminate? {
      DeathSem(s, t);
    } else {
      StepSem(s, e, t);
    }
  }

  lemma {:induction false} NobodyIsAhead(past: seq<Event>, e: Event, i: nat)
    ensures Times(past + [e], Device(i)) == Times(past, Device(i)) + if e == Device(i) then 1 else 0
    ensures Times(past + [e], WaitIo(i)) == Times(past, WaitIo(i)) + if e == WaitIo(i) then 1 else 0
  {
    assert multiset(past + [e]) == multiset(past) + multiset{e};
  }

  lemma StepKeepsLedger(s: Nucleus, e: Event, t: Nucleus, past: seq<Event>)
    requires Inv(s) && Ledger(s, past) && Step(s, e, t)
    ensures Ledger(t, past + [e])
  {
    assert CLOCK == DeviceSem(48) && CLOCK in s.sem;
    StepKeepsWords(s, e, t);
    forall i: nat | i < 48 && DeviceSem(i) in t.sem
      ensures t.sem[DeviceSem(i)] == Times(past + [e], Device(i)) - Times(past + [e], WaitIo(i))
    {
      StepLedger(s, e, t, i);
      NobodyIsAhead(past, e, i);
    }
  }

  /** A solicited interrupt finds its semaphore negative. */
  lemma SolicitedOwes(s: Nucleus, e: Event, past: seq<Event>)
    requires Ledger(s, past) && e.Device? && e.i < 48 && DeviceSem(e.i) in s.sem
    requires Times(past + [e], e) <= Times(past + [e], WaitIo(e.i))
    ensures s.sem[DeviceSem(e.i)] < 0
  {
    NobodyIsAhead(past, e, e.i);
  }

  // ---- few addresses

  ghost predicate Reached(s: Nucleus, used: set<int>, past: seq<Event>) { s in ReachedStates(used, past) }

  /** The states in which a safe run with these addresses can be after the events `past`. */
  ghost function ReachedStates(used: set<int>, past: seq<Event>): iset<Nucleus> {
    iset s | Inv(s) && Within(s, used) && Ledger(s, past)
  }

  lemma FewAddressesFit(s: Nucleus, e: Event, t: Nucleus, used: set<int>, past: seq<Event>)
    requires Reached(s, used, past) && Step(s, e, t) && |used| <= MAXPROC
    requires Target(e).Some? ==> Target(e).value in used
    requires forall i: nat :: Times(past + [e], Device(i)) <= Times(past + [e], WaitIo(i))
    ensures Fits(s, e)
  {
    if Target(e).Some? {
      FewAddressesSuffice(s, used, Target(e).value);
    } else if e.Device? {
      SolicitedOwes(s, e, past);
    }
  }

  lemma FewAddressesStep(s: Nucleus, e: Event, t: Nucleus, used: set<int>, past: seq<Event>)
    requires Reached(s, used, past) && Step(s, e, t) && |used| <= MAXPROC
    requires Target(e).Some? ==> Target(e).value in used
    requires forall i: nat :: Times(past + [e], Device(i)) <= Times(past + [e], WaitIo(i))
    ensures Fits(s, e) && Reached(t, used, past + [e])
  {
    FewAddressesFit(s, e, t, used, past);
    StepKeeps(s, e, t);
    StepWithin(s, e, t, used);
    StepKeepsLedger(s, e, t, past);
  }

  lemma BootIsReached(memory: map<int, int>, used: set<int>, events: seq<Event>)
    requires Bootable(memory)
    ensures Reached(Booted(memory), used, events[..0])
  {
    BootedInv(memory);
  }

  /** From boot, with at most MAXPROC semaphore addresses ever waited on and no unsolicited
      device interrupt, the invariant holds in every state: nobody is ever lost. */
  lemma {:induction false} RunKeeps(memory: map<int, int>, used: set<int>, states: seq<Nucleus>, events: seq<Event>,
                                    n: nat)
    requires Bootable(memory) && Run(states, events) && states[0] == Booted(memory)
    requires |used| <= MAXPROC && Used(used, events) && Solicited(events)
    requires n <= |events|
    ensures Reached(states[n], used, events[..n])
    ensures forall k :: 0 <= k < n ==> Fits(states[k], events[k])
  {
    if n == 0 {
      BootIsReached(memory, used, events);
    } else {
      RunKeeps(memory, used, states, events, n - 1);
      OneMore(events, n);
      FewAddressesStep(states[n - 1], events[n - 1], states[n], used, events[..n - 1]);
    }
  }

  // ---- no emptied descriptor

  /** Only the death of a process can leave a descriptor without waiters. */
  lemma OnlyDeathsEmpty(s: Nucleus, e: Event, t: Nucleus)
    requires Ascending(s.blocked.descs) && NoneEmpty(s.blocked) && Step(s, e, t) && !e.Terminate?
    ensures NoneEmpty(t.blocked)
  {
    if e.Tick? {
      DrainEmptiesNone(s);
    } else {
      ListSteps(s, e, t);
      if Target(e).Some? {
        InsertEmptiesNone(s.blocked, Target(e).value, s.current.value);
      } else if e.V? {
        RemoveEmptiesNone(s.blocked, e.a);
      } else if e.Device? {
        RemoveEmptiesNone(s.blocked, DeviceSem(e.i));
      }
    }
  }

  lemma {:induction false} DrainEmptiesNone(s: Nucleus)
    requires Ascending(s.blocked.descs) && NoneEmpty(s.blocked)
    ensures NoneEmpty(Drain(s, CLOCK).blocked)
    decreases |QueueOf(s.blocked, CLOCK)|
  {
    if QueueOf(s.blocked, CLOCK) != [] {
      RemoveIsTail(s.blocked, CLOCK, CLOCK);
      RemoveEmptiesNone(s.blocked, CLOCK);
      DrainEmptiesNone(Unwait(Release(s, CLOCK)));
    }
  }

  /** Every death leaves each descriptor with a waiter, or takes the last one of none. */
  ghost predicate DeathsEmptyNone(states: seq<Nucleus>, events: seq<Event>)
    requires |states| == |events| + 1
  {
    forall n :: 0 <= n < |events| && events[n].Terminate? ==> NoneEmpty(states[n + 1].blocked)
  }

  lemma NoneEmptyFits(s: Nucleus, e: Event, t: Nucleus, past: seq<Event>)
    requires Inv(s) && NoneEmpty(s.blocked) && Ledger(s, past) && Step(s, e, t)
    requires forall i: nat :: Times(past + [e], Device(i)) <= Times(past + [e], WaitIo(i))
    ensures Fits(s, e)
  {
    if Target(e).Some? {
      NonEmptyDescriptorsSuffice(s, Target(e).value);
    } else if e.Device? {
      SolicitedOwes(s, e, past);
    }
  }

  ghost predicate Tidy(s: Nucleus, past: seq<Event>) { s in TidyStates(past) }

  /** The states without an empty descriptor in which a safe run can be after `past`. */
  ghost function TidyStates(past: seq<Event>): iset<Nucleus> {
    iset s | Inv(s) && NoneEmpty(s.blocked) && Ledger(s, past)
  }

  lemma NoneEmptyStep(s: Nucleus, e: Event, t: Nucleus, past: seq<Event>)
    requires Tidy(s, past) && Step(s, e, t) && (e.Terminate? ==> NoneEmpty(t.blocked))
    requires forall i: nat :: Times(past + [e], Device(i)) <= Times(past + [e], WaitIo(i))
    ensures Fits(s, e) && Tidy(t, past + [e])
  {
    NoneEmptyFits(s, e, t, past);
    StepKeeps(s, e, t);
    if !e.Terminate? { OnlyDeathsEmpty(s, e, t); }
    StepKeepsLedger(s, e, t, past);
  }

  lemma BootIsTidy(memory: map<int, int>, events: seq<Event>)
    requires Bootable(memory)
    ensures Tidy(Booted(memory), events[..0])
  {
    BootedInv(memory);
  }

  /** From boot, if no death leaves an empty descriptor behind and no device interrupts
      unasked, the invariant holds in every state, however many addresses are waited on. */
  lemma {:induction false} NonEmptyRunKeeps(memory: map<int, int>, states: seq<Nucleus>, events: seq<Event>, n: nat)
    requires Bootable(memory) && Run(states, events) && states[0] == Booted(memory)
    requires DeathsEmptyNone(states, events) && Solicited(events)
    requires n <= |events|
    ensures Tidy(states[n], events[..n])
    ensures forall k :: 0 <= k < n ==> Fits(states[k], events[k])
  {
    if n == 0 {
      BootIsTidy(memory, events);
    } else {
      NonEmptyRunKeeps(memory, states, events, n - 1);
      OneMore(events, n);
      NoneEmptyStep(states[n - 1], events[n - 1], states[n], events[..n - 1]);
    }
  }

  // ---- safe runs

  /** A run from boot without unsolicited interrupts that waits on at most MAXPROC
      addresses, or in which no death leaves an empty descriptor behind. */
  ghost predicate Safe(memory: map<int, int>, states: seq<Nucleus>, events: seq<Event>) {
    && Bootable(memory) && Run(states, events) && states[0] == Booted(memory) && Solicited(events)
    && (DeathsEmptyNone(states, events) || exists used: set<int> :: |used| <= MAXPROC && Used(used, events))
  }

  lemma SafeRun(memory: map<int, int>, states: seq<Nucleus>, events: seq<Event>)
    requires Safe(memory, states, events)
    ensures Sound(states) && forall k :: 0 <= k < |events| ==> Fits(states[k], events[k])
  {
    if DeathsEmptyNone(states, events) {
      forall n | 0 <= n < |states| ensures Inv(states[n]) { NonEmptyRunKeeps(memory, states, events, n); }
      NonEmptyRunKeeps(memory, states, events, |events|);
    } else {
      var used: set<int> :| |used| <= MAXPROC && Used(used, events);
      forall n | 0 <= n < |states| ensures Inv(states[n]) { RunKeeps(memory, used, states, events, n); }
      RunKeeps(memory, used, states, events, |events|);
    }
  }
}
