/** Runs of the nucleus under any mix of system calls and interrupts: what every step keeps,
    exactly when a step loses its caller, and what the verdicts of the scheduler mean. */
module Runs {
  import opened Sequences
  import opened SemaphoreLists
  import opened NucleusState
  import opened NucleusSteps

  datatype Event =
    | Create | Terminate | P(a: int) | V(a: int) | WaitIo(i: nat) | WaitClock
    | Timer | Device(i: nat) | Tick

  ghost predicate Step(s: Nucleus, e: Event, t: Nucleus) { t in Successors(s, e) }

  ghost function Successors(s: Nucleus, e: Event): iset<Nucleus> { iset t | Possible(s, e, t) }

  /** The events of a running process, and the interrupts, which may also end a wait. */
  ghost predicate Possible(s: Nucleus, e: Event, t: Nucleus) {
    match e
    case Create => s.current.Some? && t == CreateProcess(s)
    case Terminate => s.current.Some? && exists gone, reaped :: Dies(s, gone, reaped) && t == Schedule(reaped)
    case P(a) => s.current.Some? && a in s.sem && !IsDevice(a) && t == Passeren(s, a)
    case V(a) => s.current.Some? && a in s.sem && !IsDevice(a) && t == Verhogen(s, a)
    case WaitIo(i) => s.current.Some? && i < 48 && DeviceSem(i) in s.sem && t == WaitOn(s, DeviceSem(i))
    case WaitClock => s.current.Some? && CLOCK in s.sem && t == WaitOn(s, CLOCK)
    case Timer => s.current.Some? && t == LocalTimer(s)
    case Device(i) => i < 48 && DeviceSem(i) in s.sem && t == DeviceInterrupt(s, DeviceSem(i))
    case Tick => Ascending(s.blocked.descs) && t == ClockTick(s)
  }

  ghost predicate Dies(s: Nucleus, gone: set<Pid>, reaped: Nucleus)
    requires s.current.Some?
  {
    IsSubtree(s, s.current.value, gone) && Reaped(s, gone, reaped)
  }

  ghost predicate Run(states: seq<Nucleus>, events: seq<Event>) {
    && |states| == |events| + 1
    && (forall n :: 0 <= n < |events| ==> Step(states[n], events[n], states[n + 1]))
  }

  ghost predicate Sound(states: seq<Nucleus>) {
    forall n {:trigger Inv(states[n])} :: 0 <= n < |states| ==> Inv(states[n])
  }

  /** The semaphore an event may block its caller on. */
  function Target(e: Event): Option<int> {
    match e
    case P(a) => Some(a)
    case WaitIo(i) => Some(DeviceSem(i))
    case WaitClock => Some(CLOCK)
    case _ => None
  }

  /** insertBlocked succeeds if it is called, and no device interrupts without a wait. */
  ghost predicate Fits(s: Nucleus, e: Event) {
    && (e.P? && e.a in s.sem && s.sem[e.a] <= 0 ==> CanBlock(s.blocked, e.a))
    && (e.WaitIo? || e.WaitClock? ==> CanBlock(s.blocked, Target(e).value))
    && (e.Device? && DeviceSem(e.i) in s.sem ==> s.sem[DeviceSem(e.i)] < 0)
  }

  lemma StepKeeps(s: Nucleus, e: Event, t: Nucleus)
    requires Inv(s) && Step(s, e, t) && Fits(s, e)
    ensures Inv(t)
  {
    match e
    case Create => CreateProcessKeeps(s);
    case Terminate =>
      var gone, reaped :| Dies(s, gone, reaped) && t == Schedule(reaped);
      TerminateKeeps(s, gone, reaped);
    case P(a) => PasserenKeeps(s, a);
    case V(a) => VerhogenKeeps(s, a);
    case WaitIo(i) => WaitOnKeeps(s, DeviceSem(i));
    case WaitClock => WaitOnKeeps(s, CLOCK);
    case Timer => LocalTimerKeeps(s);
    case Device(i) => DeviceInterruptKeeps(s, DeviceSem(i));
    case Tick => ClockTickKeeps(s);
  }

  // ---- what a step makes of the semaphores

  lemma {:induction false} DrainKeepsSem(s: Nucleus)
    requires Ascending(s.blocked.descs)
    ensures Drain(s, CLOCK).sem == s.sem
    decreases |QueueOf(s.blocked, CLOCK)|
  {
    if QueueOf(s.blocked, CLOCK) != [] {
      RemoveIsTail(s.blocked, CLOCK, CLOCK);
      DrainKeepsSem(Unwait(Release(s, CLOCK)));
    }
  }

  lemma PasserenSem(s: Nucleus, a: int)
    requires s.current.Some? && a in s.sem
    ensures Passeren(s, a).sem == s.sem[a := s.sem[a] - 1]
  {
  }

  lemma VerhogenSem(s: Nucleus, a: int)
    requires a in s.sem
    ensures Verhogen(s, a).sem == s.sem[a := s.sem[a] + 1]
  {
  }

  lemma WaitOnSem(s: Nucleus, a: int)
    requires s.current.Some? && a in s.sem
    ensures WaitOn(s, a).sem == s.sem[a := s.sem[a] - 1]
  {
  }

  lemma DeviceInterruptSem(s: Nucleus, a: int)
    requires a in s.sem
    ensures DeviceInterrupt(s, a).sem == s.sem[a := s.sem[a] + 1]
  {
    VerhogenSem(s, a);
  }

  /** The values of the semaphores after a step other than a death. */
  ghost function SemAfter(s: Nucleus, e: Event): map<int, int>
    requires exists t :: Step(s, e, t)
  {
    match e
    case P(a) => s.sem[a := s.sem[a] - 1]
    case V(a) => s.sem[a := s.sem[a] + 1]
    case WaitIo(i) => s.sem[DeviceSem(i) := s.sem[DeviceSem(i)] - 1]
    case WaitClock => s.sem[CLOCK := s.sem[CLOCK] - 1]
    case Device(i) => s.sem[DeviceSem(i) := s.sem[DeviceSem(i)] + 1]
    case Tick => s.sem[CLOCK := 0]
    case _ => s.sem
  }

  lemma StepSem(s: Nucleus, e: Event, t: Nucleus)
    requires Step(s, e, t) && !e.Terminate?
    ensures t.sem == SemAfter(s, e)
  {
    match e
    case Create =>
    case P(a) => PasserenSem(s, a);
    case V(a) => VerhogenSem(s, a);
    case WaitIo(i) => WaitOnSem(s, DeviceSem(i));
    case WaitClock => WaitOnSem(s, CLOCK);
    case Timer =>
    case Device(i) => DeviceInterruptSem(s, DeviceSem(i));
    case Tick =>
      DrainKeepsSem(s);
      assert ClockTick(s).sem == s.sem[CLOCK := 0];
  }

  lemma DeathSem(s: Nucleus, t: Nucleus)
    requires Step(s, Terminate, t)
    ensures t.sem.Keys == s.sem.Keys && forall a :: a in s.sem && IsDevice(a) ==> t.sem[a] == s.sem[a]
  {
    var gone, reaped :| Dies(s, gone, reaped) && t == Schedule(reaped);
    assert ReapedSemaphores(s, gone, reaped);
  }

  /** The semaphore list after a P or a wait on `a`. */
  function Suspended(s: Nucleus, a: int): SemList<Pid>
    requires a in s.sem && s.current.Some?
  {
    if s.sem[a] <= 0 then InsertBlocked(s.blocked, a, s.current.value) else s.blocked
  }

  /** The semaphore list after a V on `a`. */
  function Woken(s: Nucleus, a: int): SemList<Pid>
    requires a in s.sem
  {
    if s.sem[a] < 0 then RemoveBlocked(s.blocked, a) else s.blocked
  }

  /** What a step other than a death or a clock tick makes of the semaphore list. */
  lemma ListSteps(s: Nucleus, e: Event, t: Nucleus)
    requires Step(s, e, t) && !e.Terminate? && !e.Tick?
    ensures match e
            case P(a) => t.blocked == Suspended(s, a)
            case WaitIo(i) => t.blocked == Suspended(s, DeviceSem(i))
            case WaitClock => t.blocked == Suspended(s, CLOCK)
            case V(a) => t.blocked == Woken(s, a)
            case Device(i) => t.blocked == Woken(s, DeviceSem(i))
            case _ => t.blocked == s.blocked
  {
  }

  // ---- enough descriptors

  /** When no descriptor is empty, the running process can always be blocked: the
      descriptors are at most as many as the processes that wait. */
  lemma NonEmptyDescriptorsSuffice(s: Nucleus, a: int)
    requires Structured(s) && s.current.Some? && s.current.value !in s.free
    requires NoneEmpty(s.blocked)
    ensures CanBlock(s.blocked, a)
  {
    SpotOf(s, s.current.value);
    forall p: Pid ensures Waiting(s.blocked.descs)[p] <= 1 { SpotOf(s, p); }
    var heads := HeadsOf(s.blocked.descs);
    var others := Below(MAXPROC) - {s.current.value};
    forall p | p in heads ensures p in others { assert Waiting(s.blocked.descs)[p] > 0; }
    NoMoreThan(heads, others);
  }

  /** One waiter of each descriptor, all different. */
  lemma {:induction false} HeadsOf(ds: seq<Desc<Pid>>) returns (heads: set<Pid>)
    requires forall i :: 0 <= i < |ds| ==> ds[i].queue != []
    requires forall p: Pid :: Waiting(ds)[p] <= 1
    ensures |heads| == |ds|
    ensures forall p :: p in heads ==> Waiting(ds)[p] > 0
  {
    heads := {};
    if ds != [] {
      forall p: Pid ensures Waiting(ds)[p] == multiset(ds[0].queue)[p] + Waiting(ds[1..])[p] {}
      heads := HeadsOf(ds[1..]);
      var h: Pid := ds[0].queue[0];
      assert h in ds[0].queue;
      CountOfMember<Pid>(ds[0].queue, h);
      assert Waiting(ds)[h] <= 1;
      heads := heads + {h};
    }
  }

  ghost predicate Within(s: Nucleus, used: set<int>) {
    forall a :: Active(s.blocked, a) ==> a in used
  }

  lemma {:induction false} AddressesOf(ds: seq<Desc<Pid>>) returns (addresses: set<int>)
    requires Ascending(ds)
    ensures |addresses| == |ds|
    ensures forall a :: a in addresses <==> exists k :: 0 <= k < |ds| && ds[k].addr == a
  {
    addresses := {};
    if ds != [] {
      addresses := AddressesOf(ds[1..]);
      AscendingPairs(ds);
      assert forall k :: 0 <= k < |ds[1..]| ==> ds[1..][k] == ds[k + 1];
      forall a ensures a in addresses + {ds[0].addr} <==> exists k :: 0 <= k < |ds| && ds[k].addr == a {
        if k :| 0 <= k < |ds| && ds[k].addr == a {
          assert k == 0 || ds[1..][k - 1].addr == a;
        }
      }
      assert ds[0].addr !in addresses;
      addresses := addresses + {ds[0].addr};
    }
  }

  /** With at most MAXPROC addresses in use, emptied descriptors or not, blocking succeeds. */
  lemma FewAddressesSuffice(s: Nucleus, used: set<int>, a: int)
    requires Listed(s) && Within(s, used) && |used| <= MAXPROC && a in used
    ensures CanBlock(s.blocked, a)
  {
    if !Active(s.blocked, a) {
      var addresses := AddressesOf(s.blocked.descs);
      forall b | b in addresses ensures b in used - {a} { ActiveIff(s.blocked, b); }
      NoMoreThan(addresses, used - {a});
    }
  }

  /** P loses its caller, which then stands nowhere, exactly when it must block it and
      has no descriptor for that. */
  lemma PlacedIffBlocked(s: Nucleus, a: int)
    requires Inv(s) && s.current.Some? && a in s.sem && !IsDevice(a)
    ensures Placed(Passeren(s, a)) <==> s.sem[a] > 0 || CanBlock(s.blocked, a)
  {
    if s.sem[a] > 0 || CanBlock(s.blocked, a) {
      PasserenKeeps(s, a);
    } else {
      var c := s.current.value;
      SpotOf(s, c);
      assert Spots(Passeren(s, a), c) == 0;
    }
  }

  /** A wait loses its caller unless the semaphore owes and a descriptor is to be had. */
  lemma PlacedIffDeviceOwes(s: Nucleus, a: int)
    requires Structured(s) && s.current.Some? && s.current.value !in s.free && a in s.sem
    ensures Placed(WaitOn(s, a)) <==> s.sem[a] <= 0 && CanBlock(s.blocked, a)
  {
    if s.sem[a] <= 0 && CanBlock(s.blocked, a) {
      BlockedVacates(s, a);
      ScheduledWaitOn(s, a, Block(Add(s, a, -1), a));
    } else {
      LostUnlessBlocked(s, a);
    }
  }

  lemma ScheduledWaitOn(s: Nucleus, a: int, u: Nucleus)
    requires s.current.Some? && a in s.sem && s.sem[a] <= 0 && u == Block(Add(s, a, -1), a)
    requires Structured(Vacated(u))
    ensures Placed(WaitOn(s, a))
  {
    WaitOnBlocks(s, a);
    ScheduledSoft(u);
  }

  lemma BlockedVacates(s: Nucleus, a: int)
    requires Structured(s) && s.current.Some? && s.current.value !in s.free && a in s.sem && CanBlock(s.blocked, a)
    ensures Structured(Vacated(Block(Add(s, a, -1), a)))
  {
    AddKeeps(s, a, -1);
    BlockKeeps(Add(s, a, -1), a);
  }

  lemma ScheduledSoft(u: Nucleus)
    requires Structured(Vacated(u))
    ensures Placed(Schedule(u.(softBlock := u.softBlock + 1)))
  {
    SoftKeeps(Vacated(u), u.softBlock + 1);
    ScheduleKeeps(u.(softBlock := u.softBlock + 1));
  }

  lemma LostUnlessBlocked(s: Nucleus, a: int)
    requires Placed(s) && s.current.Some? && s.current.value !in s.free && a in s.sem
    requires s.sem[a] > 0 || !CanBlock(s.blocked, a)
    ensures !Placed(WaitOn(s, a))
  {
    SpotOf(s, s.current.value);
    assert Spots(WaitOn(s, a), s.current.value) == 0;
  }

  // ---- the scheduler's verdict

  lemma {:induction false} CrowdIffSomebody(ds: seq<Desc<Pid>>, lo: int, hi: int)
    ensures Crowd(ds, lo, hi) > 0 <==> exists k :: 0 <= k < |ds| && lo <= ds[k].addr <= hi && ds[k].queue != []
  {
    if ds != [] {
      var t := ds[1..];
      CrowdIffSomebody(t, lo, hi);
      assert forall k :: 0 <= k < |t| ==> t[k] == ds[k + 1];
      if k :| 0 <= k < |ds| && lo <= ds[k].addr <= hi && ds[k].queue != [] {
        assert k == 0 || t[k - 1] == ds[k];
      }
    }
  }

  ghost predicate WaitsOnDevice(s: Nucleus, p: Pid) {
    p in QueueOf(s.blocked, s.procs[p].semAdd) && IsDevice(s.procs[p].semAdd)
  }

  lemma SoftBlockedIff(s: Nucleus)
    requires Structured(s) && SoftBlocked(s)
    ensures s.softBlock > 0 <==> exists p: Pid :: p in Live(s) && WaitsOnDevice(s, p)
  {
    CrowdIffSomebody(s.blocked.descs, DEVICE_BASE, DEVICE_LAST);
    if k :| 0 <= k < |s.blocked.descs| && IsDevice(s.blocked.descs[k].addr) && s.blocked.descs[k].queue != [] {
      var p := s.blocked.descs[k].queue[0];
      ActiveOf(s.blocked, k);
      QueueWaits(s.blocked, s.blocked.descs[k].addr, p);
      SpotOf(s, p);
      WaitsThere(s.blocked, s.procs[p].semAdd, s.blocked.descs[k].addr, p);
      assert p in Live(s) && WaitsOnDevice(s, p);
    }
    if p: Pid :| p in Live(s) && WaitsOnDevice(s, p) {
      var k := Slot(s.blocked.descs, s.procs[p].semAdd);
      assert s.blocked.descs[k].queue != [];
    }
  }

  /** DISPATCH means that somebody runs, HALT that no process is left, WAIT that some process
      waits for a device or the clock, PANIC that every process waits for another process:
      deadlock. */
  lemma VerdictIsRight(t: Nucleus)
    requires Inv(t)
    ensures VerdictIn(t) == Dispatch <==> t.current.Some?
    ensures VerdictIn(t) == Halt <==> Live(t) == {}
    ensures VerdictIn(t) == Wait <==> t.current.None? && exists p: Pid :: p in Live(t) && WaitsOnDevice(t, p)
    ensures VerdictIn(t) == Panic <==>
            && t.current.None? && Live(t) != {}
            && forall p: Pid :: p in Live(t) ==> p in QueueOf(t.blocked, t.procs[p].semAdd) && !WaitsOnDevice(t, p)
  {
    SoftBlockedIff(t);
    if t.current.None? {
      forall p: Pid | p in Live(t) ensures p in QueueOf(t.blocked, t.procs[p].semAdd) { SpotOf(t, p); }
      if t.processCount == 0 { assert Live(t) == {}; }
    } else {
      assert t.current.value in Live(t);
    }
  }
}
