/** What each exception changes, and that it changes nothing else: semaphores, the queues of
    their waiters, the process tree, the ready queue and the running process. */
module Effects {
  import opened Sequences
  import opened SemaphoreLists
  import opened NucleusState
  import opened NucleusSteps
  import opened Runs
  import opened Fairness

  /** The exception is a P on `a`, under whatever name. */
  predicate Takes(e: Event, a: int) {
    e == P(a) || (e.WaitIo? && a == DeviceSem(e.i)) || (e.WaitClock? && a == CLOCK)
  }

  /** The exception is a V on `a`. */
  predicate Gives(e: Event, a: int) { e == V(a) || (e.Device? && a == DeviceSem(e.i)) }

  // ---- semaphores

  /** A P takes one from its semaphore and a V adds one to it; a tick clears the clock; deaths
      pay back the dead waiters of a semaphore of the processes. No other word changes. */
  lemma WordsStep(s: Nucleus, e: Event, t: Nucleus, a: int)
    requires Inv(s) && Step(s, e, t) && a in s.sem
    ensures t.sem.Keys == s.sem.Keys
    ensures e.Terminate? ==>
              t.sem[a] - s.sem[a] == if IsDevice(a) then 0 else |QueueOf(s.blocked, a)| - |QueueOf(t.blocked, a)|
    ensures e.Tick? ==> t.sem[a] == if a == CLOCK then 0 else s.sem[a]
    ensures !e.Terminate? && !e.Tick? ==>
              t.sem[a] - s.sem[a] == if Gives(e, a) then 1 else if Takes(e, a) then -1 else 0
  {
    assert CLOCK == DeviceSem(48) && CLOCK in s.sem;
    if e.Terminate? {
      WordsDeath(s, t, a);
    } else {
      WordsAlive(s, e, t, a);
    }
  }

  lemma WordsAlive(s: Nucleus, e: Event, t: Nucleus, a: int)
    requires Step(s, e, t) && !e.Terminate? && a in s.sem && CLOCK in s.sem
    ensures t.sem.Keys == s.sem.Keys
    ensures t.sem[a] == if e.Tick? then (if a == CLOCK then 0 else s.sem[a])
                        else s.sem[a] + if Gives(e, a) then 1 else if Takes(e, a) then -1 else 0
  {
    StepSem(s, e, t);
  }

  lemma WordsDeath(s: Nucleus, t: Nucleus, a: int)
    requires Inv(s) && Step(s, Terminate, t) && a in s.sem
    ensures t.sem.Keys == s.sem.Keys
    ensures t.sem[a] - s.sem[a] == if IsDevice(a) then 0 else |QueueOf(s.blocked, a)| - |QueueOf(t.blocked, a)|
  {
    var gone, reaped :| Dies(s, gone, reaped) && t == Schedule(reaped);
    PaidBack(s, gone, reaped, a);
  }

  lemma PaidBack(s: Nucleus, gone: set<Pid>, t: Nucleus, a: int)
    requires Inv(s) && Reaped(s, gone, t) && a in s.sem
    ensures t.sem.Keys == s.sem.Keys
    ensures t.sem[a] - s.sem[a] == if IsDevice(a) then 0 else |QueueOf(s.blocked, a)| - |QueueOf(t.blocked, a)|
  {
    assert ReapedSemaphores(s, gone, t);
    WithoutAllQueue(s.blocked, gone, a);
  }

  // ---- queues of waiters

  ghost predicate QueueMoves(s: Nucleus, e: Event, t: Nucleus, a: int) {
    var q := QueueOf(s.blocked, a);
    QueueOf(t.blocked, a) ==
    if e.Terminate? then Without<Pid>(q, DeadIn(t, q))
    else if e.Tick? then (if a == CLOCK then [] else q)
    else if Takes(e, a) && s.current.Some? && a in s.sem && s.sem[a] <= 0 && CanBlock(s.blocked, a)
    then q + [s.current.value]
    else if Gives(e, a) && Freed(s, a) != [] then q[1..]
    else q
  }

  /** The first waiter of `a`, if a V on it releases one. */
  function Freed(s: Nucleus, a: int): (freed: seq<Pid>)
    ensures freed != [] ==> QueueOf(s.blocked, a) != [] && freed == [QueueOf(s.blocked, a)[0]]
  {
    if a in s.sem && s.sem[a] < 0 && QueueOf(s.blocked, a) != [] then [QueueOf(s.blocked, a)[0]] else []
  }

  /** A P that finds nothing to take puts its caller at the end of the queue, if a descriptor
      is to be had; a V on a semaphore that owes takes the first waiter; a tick takes every
      waiter of the clock; deaths take the dead. No other queue changes. */
  lemma QueuesStep(s: Nucleus, e: Event, t: Nucleus, a: int)
    requires Inv(s) && Step(s, e, t)
    ensures QueueMoves(s, e, t, a)
  {
    if e.Terminate? {
      DeathQueue(s, t, a);
    } else if e.Tick? {
      QueuesTick(s, t, a);
    } else {
      QueuesAlive(s, e, t, a);
    }
  }

  lemma QueuesTick(s: Nucleus, t: Nucleus, a: int)
    requires Structured(s) && Steady(s) && Step(s, Tick, t)
    ensures QueueMoves(s, Tick, t, a)
  {
    QueuesDrained(s, a);
    assert t.blocked == Drain(s, CLOCK).blocked;
  }

  lemma QueuesDrained(s: Nucleus, a: int)
    requires Structured(s) && Steady(s)
    ensures QueueOf(Drain(s, CLOCK).blocked, a) == if a == CLOCK then [] else QueueOf(s.blocked, a)
  {
    DrainKeeps(s);
    if a != CLOCK { DrainSpares(s, a); }
  }

  lemma QueuesAlive(s: Nucleus, e: Event, t: Nucleus, a: int)
    requires Ascending(s.blocked.descs) && Step(s, e, t) && !e.Terminate? && !e.Tick?
    ensures QueueMoves(s, e, t, a)
  {
    ListSteps(s, e, t);
    if Target(e).Some? {
      QueuesTaken(s, e, t, a);
    } else if e.V? {
      QueuesGiven(s, e, e.a, t, a);
    } else if e.Device? {
      QueuesGiven(s, e, DeviceSem(e.i), t, a);
    }
  }

  lemma QueuesTaken(s: Nucleus, e: Event, t: Nucleus, a: int)
    requires Ascending(s.blocked.descs) && Target(e).Some? && Target(e).value in s.sem && s.current.Some?
    requires t.blocked == Suspended(s, Target(e).value)
    ensures QueueMoves(s, e, t, a)
  {
    InsertIsAppend(s.blocked, Target(e).value, s.current.value, a);
  }

  lemma QueuesGiven(s: Nucleus, e: Event, b: int, t: Nucleus, a: int)
    requires Ascending(s.blocked.descs) && (e == V(b) || (e.Device? && b == DeviceSem(e.i))) && b in s.sem
    requires t.blocked == Woken(s, b)
    ensures QueueMoves(s, e, t, a)
  {
    RemoveIsTail(s.blocked, b, a);
  }

  // ---- the process tree

  /** Creation takes the first free pcb, whose process becomes the last child of its caller. */
  lemma CreateStep(s: Nucleus, t: Nucleus)
    requires Inv(s) && Step(s, Create, t) && s.free != []
    ensures var c, n := s.current.value, s.free[0];
            && t.free == s.free[1..] && Live(t) == Live(s) + {n} && n !in Live(s)
            && t.procs[n] == Proc(Some(c), [], NULL_ADDR)
            && t.procs[c] == s.procs[c].(kids := s.procs[c].kids + [n])
            && forall p: Pid :: p != c && p != n ==> t.procs[p] == s.procs[p]
    ensures t.processCount == s.processCount + 1
  {
    var n := s.free[0];
    assert s.free == [n] + s.free[1..];
    SpotOf(s, n);
    CountOfMember(s.free[1..], n);
  }

  /** Deaths take the subtree of the caller, and its members from among the children of the
      others: the dead lie on top of the free list. */
  lemma DeathStep(s: Nucleus, t: Nucleus) returns (gone: set<Pid>)
    requires s.current.Some? && Step(s, Terminate, t)
    ensures IsSubtree(s, s.current.value, gone) && Live(t) == Live(s) - gone
    ensures |s.free| <= |t.free| && t.free[|t.free| - |s.free|..] == s.free
    ensures t.processCount == s.processCount - |gone|
    ensures forall p: Pid :: p in Live(t) ==> t.procs[p] == s.procs[p].(kids := Without(s.procs[p].kids, gone))
  {
    var reaped;
    gone, reaped :| Dies(s, gone, reaped) && t == Schedule(reaped);
    DeadLeave(s, gone, reaped);
    Survivors(s, gone, reaped);
  }

  lemma DeadLeave(s: Nucleus, gone: set<Pid>, t: Nucleus)
    requires ReapedPlaces(s, gone, t)
    ensures Live(t) == Live(s) - gone
  {
    forall p: Pid ensures p in Live(t) <==> p in Live(s) - gone {
      CountOfMember<Pid>(s.free, p);
      CountOfMember<Pid>(t.free, p);
    }
  }

  lemma Survivors(s: Nucleus, gone: set<Pid>, t: Nucleus)
    requires Live(t) == Live(s) - gone && ReapedTable(s, gone, t)
    ensures forall p: Pid :: p in Live(t) ==> t.procs[p] == s.procs[p].(kids := Without(s.procs[p].kids, gone))
  {
    forall p: Pid | p in Live(t) ensures t.procs[p] == s.procs[p].(kids := Without(s.procs[p].kids, gone)) {
      assert p in Live(s) && p !in gone;
      assert Survives(s, gone, t, p);
    }
  }

  lemma {:induction false} DrainKeepsKin(s: Nucleus)
    requires Ascending(s.blocked.descs)
    ensures var t := Drain(s, CLOCK); t.free == s.free && t.processCount == s.processCount
    decreases |QueueOf(s.blocked, CLOCK)|
  {
    if QueueOf(s.blocked, CLOCK) != [] {
      RemoveIsTail(s.blocked, CLOCK, CLOCK);
      DrainKeepsKin(Unwait(Release(s, CLOCK)));
    }
  }

  lemma FreeStaysAtDeath(s: Nucleus, t: Nucleus, p: Pid)
    requires Step(s, Terminate, t) && p in s.free
    ensures p in t.free
  {
    var gone, reaped :| Dies(s, gone, reaped) && t == Schedule(reaped);
    CountOfMember(s.free, p);
    CountOfMember(t.free, p);
  }

  /** A free pcb stays free, but for the first when a process is created. */
  lemma FreeStays(s: Nucleus, e: Event, t: Nucleus, p: Pid)
    requires Inv(s) && Step(s, e, t) && p in s.free && p !in t.free
    ensures e == Create && p == s.free[0]
  {
    if e.Create? {
      assert s.free == [s.free[0]] + s.free[1..];
    } else if e.Terminate? {
      FreeStaysAtDeath(s, t, p);
    } else {
      TreeStep(s, e, t);
    }
  }

  ghost predicate SameTree(s: Nucleus, t: Nucleus) {
    && t.free == s.free && t.processCount == s.processCount
    && forall p: Pid :: t.procs[p].kids == s.procs[p].kids && t.procs[p].parent == s.procs[p].parent
  }

  /** Nothing else makes or unmakes a process or changes the tree. */
  lemma TreeStep(s: Nucleus, e: Event, t: Nucleus)
    requires Inv(s) && Step(s, e, t) && !e.Terminate? && (e.Create? ==> s.free == [])
    ensures SameTree(s, t)
  {
    match e
    case P(a) => TreeTaken(s, a);
    case WaitIo(i) => TreeTaken(s, DeviceSem(i));
    case WaitClock => TreeTaken(s, CLOCK);
    case V(a) => TreeGiven(s, a);
    case Device(i) => TreeGiven(s, DeviceSem(i));
    case Tick => TreeTick(s);
    case _ =>
  }

  lemma TreeTaken(s: Nucleus, a: int)
    requires s.current.Some? && a in s.sem
    ensures SameTree(s, Passeren(s, a)) && SameTree(s, WaitOn(s, a))
  {
  }

  lemma TreeGiven(s: Nucleus, a: int)
    requires a in s.sem
    ensures SameTree(s, Verhogen(s, a)) && SameTree(s, DeviceInterrupt(s, a))
  {
  }

  lemma TreeTick(s: Nucleus)
    requires Structured(s) && Steady(s)
    ensures SameTree(s, ClockTick(s))
  {
    DrainKeeps(s);
    DrainKeepsKin(s);
  }

  // ---- the ready queue and the running process

  /** Those whom the exception makes ready. */
  function Joining(s: Nucleus, e: Event): seq<Pid> {
    match e
    case Create => if s.free == [] then [] else [s.free[0]]
    case V(a) => Freed(s, a)
    case Device(i) => Freed(s, DeviceSem(i))
    case Tick => QueueOf(s.blocked, CLOCK)
    case Timer => if s.current.Some? then [s.current.value] else []
    case _ => []
  }

  /** Round robin: those who become ready queue up behind the others, the dead leave, and when
      the processor is given up its next owner is the first of the queue. */
  lemma ReadyStep(s: Nucleus, e: Event, t: Nucleus)
    requires Inv(s) && Step(s, e, t)
    ensures var q := if e.Terminate? then Without<Pid>(s.ready, DeadIn(t, s.ready)) else s.ready + Joining(s, e);
            if !Dispatches(s, e) then t.current == s.current && t.ready == q
            else if q == [] then t.current == None && t.ready == []
            else t.current == Some(q[0]) && t.ready == q[1..]
  {
    if e.Terminate? {
      var gone, reaped :| Dies(s, gone, reaped) && t == Schedule(reaped);
      ReadyLosesDead(s, gone, reaped);
    } else {
      if e.Tick? { DrainKeeps(s); }
      ReadyAlive(s, e, t);
    }
  }

  ghost predicate Queued(s: Nucleus, e: Event, t: Nucleus) {
    var q := s.ready + Joining(s, e);
    if !Dispatches(s, e) then t.current == s.current && t.ready == q
    else if q == [] then t.current == None && t.ready == []
    else t.current == Some(q[0]) && t.ready == q[1..]
  }

  lemma ReadyAlive(s: Nucleus, e: Event, t: Nucleus)
    requires Step(s, e, t) && !e.Terminate?
    requires e.Tick? ==> Drain(s, CLOCK).ready == s.ready + QueueOf(s.blocked, CLOCK)
    requires e.Tick? ==> Drain(s, CLOCK).current == s.current
    ensures Queued(s, e, t)
  {
    assert s.ready + [] == s.ready;
    match e
    case P(a) => ReadyTaken(s, a);
    case WaitIo(i) => ReadyWait(s, e, DeviceSem(i));
    case WaitClock => ReadyWait(s, e, CLOCK);
    case V(a) => GivenReady(s, a);
    case Device(i) => ReadyDevice(s, i);
    case _ =>
  }

  lemma ReadyTaken(s: Nucleus, a: int)
    requires s.current.Some? && a in s.sem
    ensures Queued(s, P(a), Passeren(s, a))
  {
    assert s.ready + [] == s.ready;
  }

  lemma ReadyWait(s: Nucleus, e: Event, a: int)
    requires s.current.Some? && a in s.sem && (e.WaitIo? || e.WaitClock?)
    ensures Queued(s, e, WaitOn(s, a))
  {
    assert s.ready + [] == s.ready;
  }

  lemma ReadyDevice(s: Nucleus, i: nat)
    requires i < 48 && DeviceSem(i) in s.sem
    ensures Queued(s, Device(i), DeviceInterrupt(s, DeviceSem(i)))
  {
    GivenReady(s, DeviceSem(i));
  }

  lemma GivenReady(s: Nucleus, a: int)
    requires a in s.sem
    ensures Verhogen(s, a).ready == s.ready + Freed(s, a) && Verhogen(s, a).current == s.current
  {
    assert s.ready + [] == s.ready;
  }

  lemma ReadyLosesDead(s: Nucleus, gone: set<Pid>, t: Nucleus)
    requires Structured(s) && Reaped(s, gone, t)
    ensures t.ready == Without<Pid>(s.ready, DeadIn(t, s.ready))
  {
    forall p | p in s.ready ensures p in gone <==> p in DeadIn(t, s.ready) {
      SpotOf(s, p);
      CountOfMember<Pid>(s.free, p);
      CountOfMember<Pid>(t.free, p);
    }
    WithoutAlike<Pid>(s.ready, gone, DeadIn(t, s.ready));
  }

  // ---- the start

  /** At boot process 0 runs alone, the other pcbs are free in order, and every device
      semaphore is 0. */
  lemma BootStep(memory: map<int, int>)
    requires Bootable(memory)
    ensures var s := Booted(memory);
            && s.current == Some(0) && s.ready == [] && s.blocked == SemList([], MAXPROC)
            && Live(s) == {0} && s.processCount == 1 && s.softBlock == 0
            && (forall i :: 0 <= i < |s.free| ==> s.free[i] == i + 1)
            && s.procs[0] == Proc(None, [], NULL_ADDR)
            && s.sem.Keys == memory.Keys
            && (forall i: nat :: i <= 48 ==> s.sem[DeviceSem(i)] == 0)
            && (forall a :: a in memory && !IsDevice(a) ==> s.sem[a] == memory[a])
  {
    var s := Booted(memory);
    forall p: Pid ensures p in s.free <==> p > 0 { if p > 0 { assert s.free[p - 1] == p; } }
    forall i: nat | i <= 48 ensures s.sem[DeviceSem(i)] == 0 { assert DeviceSem(i) in memory; }
  }
}
