/** Nobody is overtaken: neither in the ready queue nor on a semaphore. */
module Fairness {
  import opened Sequences
  import opened SemaphoreLists
  import opened NucleusState
  import opened NucleusSteps
  import opened Runs
  import opened SafeRuns

  /** Whether the handler of `e` ends in the scheduler. */
  predicate Dispatches(s: Nucleus, e: Event) {
    match e
    case P(a) => a in s.sem && s.sem[a] <= 0
    case Create => false
    case V(_) => false
    case Device(_) => s.current.None?
    case Tick => s.current.None?
    case _ => true
  }

  lemma DeadAreFree(s: Nucleus, gone: set<Pid>, t: Nucleus, p: Pid)
    requires Reaped(s, gone, t) && p in gone
    ensures p in t.free
  {
    CountOfMember(t.free, p);
  }

  /** The ready queue before the scheduler looks at it only grew at the end. */
  lemma ReadyGrows(s: Nucleus, e: Event, t: Nucleus) returns (u: Nucleus)
    requires Inv(s) && Step(s, e, t) && !e.Terminate?
    ensures s.ready <= u.ready && t == if Dispatches(s, e) then Schedule(u) else u
  {
    match e
    case Create => u := t;
    case Timer => u := s.(ready := s.ready + [s.current.value]);
    case P(a) => u := if s.sem[a] <= 0 then Block(Add(s, a, -1), a) else t;
    case WaitIo(i) => u := WaitGrows(s, DeviceSem(i));
    case WaitClock => u := WaitGrows(s, CLOCK);
    case V(a) => u := t;
    case Device(i) =>
      var a := DeviceSem(i);
      var v := Verhogen(s, a);
      u := if s.sem[a] + 1 <= 0 && QueueOf(s.blocked, a) != [] then Unwait(v) else v;
    case Tick =>
      DrainKeeps(s);
      var d := Drain(s, CLOCK);
      u := d.(sem := d.sem[CLOCK := 0]);
  }

  lemma WaitGrows(s: Nucleus, a: int) returns (u: Nucleus)
    requires s.current.Some? && a in s.sem
    ensures u.ready == s.ready && WaitOn(s, a) == Schedule(u)
  {
    var v := if s.sem[a] <= 0 then Block(Add(s, a, -1), a) else Add(s, a, -1);
    u := v.(softBlock := v.softBlock + 1);
  }

  /** A ready process keeps its place or moves up, and moves up at every call of the scheduler. */
  lemma StepAdvances(s: Nucleus, e: Event, t: Nucleus, i: nat) returns (j: nat)
    requires Inv(s) && Step(s, e, t) && i < |s.ready|
    ensures Advanced(s, e, t, i, j)
  {
    if e.Terminate? {
      var gone, reaped :| Dies(s, gone, reaped) && t == Schedule(reaped);
      j := DeathAdvances(s, gone, reaped, i);
    } else {
      var u := ReadyGrows(s, e, t);
      j := if Dispatches(s, e) && i > 0 then i - 1 else i;
    }
  }

  ghost predicate Advanced(s: Nucleus, e: Event, t: Nucleus, i: nat, j: nat)
    requires i < |s.ready|
  {
    || s.ready[i] in t.free
    || t.current == Some(s.ready[i])
    || (j < |t.ready| && t.ready[j] == s.ready[i] && j + (if Dispatches(s, e) then 1 else 0) <= i)
  }

  lemma DeathAdvances(s: Nucleus, gone: set<Pid>, t: Nucleus, i: nat) returns (j: nat)
    requires Reaped(s, gone, t) && i < |s.ready|
    ensures Advanced(s, Terminate, Schedule(t), i, j)
  {
    j := 0;
    if s.ready[i] in gone {
      DeadAreFree(s, gone, t, s.ready[i]);
    } else {
      var k := WithoutAdvances<Pid>(s.ready, gone, i);
      j := if k > 0 then k - 1 else 0;
    }
  }

  ghost function SchedulerCalls(states: seq<Nucleus>, events: seq<Event>): nat
    requires |states| == |events| + 1
    decreases |events|
  {
    if events == [] then 0
    else (if Dispatches(states[0], events[0]) then 1 else 0) + SchedulerCalls(states[1..], events[1..])
  }

  lemma TailOfRun(states: seq<Nucleus>, events: seq<Event>)
    requires Run(states, events) && Sound(states) && events != []
    ensures Run(states[1..], events[1..]) && Sound(states[1..])
    ensures Inv(states[0]) && Step(states[0], events[0], states[1])
  {
    assert Inv(states[0]);
    forall n | 0 <= n < |states[1..]| ensures Inv(states[1..][n]) {
      assert states[1..][n] == states[n + 1];
    }
    forall n | 0 <= n < |events[1..]| ensures Step(states[1..][n], events[1..][n], states[1..][n + 1]) {
      assert Step(states[n + 1], events[n + 1], states[n + 2]);
    }
  }

  lemma SuffixOfRun(states: seq<Nucleus>, events: seq<Event>, n: nat)
    requires Run(states, events) && Sound(states) && n <= |events|
    ensures Run(states[n..], events[n..]) && Sound(states[n..])
  {
    forall k | 0 <= k < |states[n..]| ensures Inv(states[n..][k]) {
      assert states[n..][k] == states[n + k];
    }
    forall k | 0 <= k < |events[n..]| ensures Step(states[n..][k], events[n..][k], states[n..][k + 1]) {
      assert Step(states[n + k], events[n + k], states[n + k + 1]);
    }
  }

  /** Round robin is fair: in every safe run from boot, the process at position `i` of the
      ready queue runs within `i + 1` calls of the scheduler, unless it is killed first. */
  lemma BoundedDispatch(memory: map<int, int>, states: seq<Nucleus>, events: seq<Event>, n: nat, i: nat)
    returns (k: nat)
    requires Safe(memory, states, events) && n <= |events| && i < |states[n].ready|
    requires SchedulerCalls(states[n..], events[n..]) > i
    ensures n < k < |states|
    ensures states[k].current == Some(states[n].ready[i]) || states[n].ready[i] in states[k].free
  {
    SafeRun(memory, states, events);
    SuffixOfRun(states, events, n);
    k := DispatchedSoon(states[n..], events[n..], i);
    k := n + k;
  }

  lemma {:induction false} DispatchedSoon(states: seq<Nucleus>, events: seq<Event>, i: nat) returns (k: nat)
    requires Run(states, events) && Sound(states) && i < |states[0].ready|
    requires SchedulerCalls(states, events) > i
    ensures 0 < k < |states|
    ensures states[k].current == Some(states[0].ready[i]) || states[0].ready[i] in states[k].free
    decreases |events|
  {
    var p := states[0].ready[i];
    TailOfRun(states, events);
    var j := StepAdvances(states[0], events[0], states[1], i);
    if p in states[1].free || states[1].current == Some(p) {
      k := 1;
    } else {
      k := DispatchedSoon(states[1..], events[1..], j);
      k := k + 1;
    }
  }

  // ---- first come, first served

  lemma {:induction false} DrainSpares(s: Nucleus, a: int)
    requires Ascending(s.blocked.descs) && a != CLOCK
    ensures QueueOf(Drain(s, CLOCK).blocked, a) == QueueOf(s.blocked, a)
    decreases |QueueOf(s.blocked, CLOCK)|
  {
    if QueueOf(s.blocked, CLOCK) != [] {
      RemoveIsTail(s.blocked, CLOCK, CLOCK);
      RemoveIsTail(s.blocked, CLOCK, a);
      DrainSpares(Unwait(Release(s, CLOCK)), a);
    }
  }

  /** The queue of a semaphore of the processes loses its head at a V on it, loses exactly the
      dead when processes die, and otherwise at most grows at its end. */
  lemma QueueSteps(s: Nucleus, e: Event, t: Nucleus, a: int)
    requires Inv(s) && Step(s, e, t) && a in s.sem && !IsDevice(a)
    ensures var q := QueueOf(s.blocked, a);
            if e.Terminate? then QueueOf(t.blocked, a) == Without<Pid>(q, DeadIn(t, q))
            else if e == V(a) && q != [] then QueueOf(t.blocked, a) == q[1..]
            else q <= QueueOf(t.blocked, a)
  {
    if e.Terminate? {
      DeathQueue(s, t, a);
    } else if e.Tick? {
      DrainSpares(s, a);
    } else {
      assert e == V(a) && QueueOf(s.blocked, a) != [] ==> s.sem[a] < 0;
      QueueStepsAlive(s, e, t, a);
    }
  }

  lemma DeathQueue(s: Nucleus, t: Nucleus, a: int)
    requires Structured(s) && Step(s, Terminate, t)
    ensures var q := QueueOf(s.blocked, a); QueueOf(t.blocked, a) == Without<Pid>(q, DeadIn(t, q))
  {
    var gone, reaped :| Dies(s, gone, reaped) && t == Schedule(reaped);
    QueueLosesDead(s, gone, reaped, a);
  }

  /** Those of `q` that are on the free list. */
  function DeadIn(t: Nucleus, q: seq<Pid>): set<Pid> { set p | p in q && p in t.free }

  lemma QueueLosesDead(s: Nucleus, gone: set<Pid>, t: Nucleus, a: int)
    requires Structured(s) && Reaped(s, gone, t)
    ensures var q := QueueOf(s.blocked, a); QueueOf(t.blocked, a) == Without<Pid>(q, DeadIn(t, q))
  {
    var q: seq<Pid> := QueueOf(s.blocked, a);
    WithoutAllQueue(s.blocked, gone, a);
    forall p | p in q ensures p in gone <==> p in DeadIn(t, q) {
      QueueWaits(s.blocked, a, p);
      SpotOf(s, p);
      CountOfMember<Pid>(s.free, p);
      CountOfMember<Pid>(t.free, p);
    }
    WithoutAlike<Pid>(q, gone, DeadIn(t, q));
  }

  lemma QueueStepsAlive(s: Nucleus, e: Event, t: Nucleus, a: int)
    requires Ascending(s.blocked.descs) && Step(s, e, t) && a in s.sem && !IsDevice(a) && !e.Terminate? && !e.Tick?
    requires e == V(a) && QueueOf(s.blocked, a) != [] ==> s.sem[a] < 0
    ensures var q := QueueOf(s.blocked, a);
            if e == V(a) && q != [] then QueueOf(t.blocked, a) == q[1..] else q <= QueueOf(t.blocked, a)
  {
    ListSteps(s, e, t);
    if Target(e).Some? {
      InsertIsAppend(s.blocked, Target(e).value, s.current.value, a);
    } else if e.V? {
      RemoveIsTail(s.blocked, e.a, a);
    } else if e.Device? {
      RemoveIsTail(s.blocked, DeviceSem(e.i), a);
    }
  }

  ghost predicate Runnable(s: Nucleus, p: Pid) { p in s.ready || s.current == Some(p) }

  /** A waiter keeps its place or moves up, and moves up at every V. */
  lemma WaiterAdvances(s: Nucleus, e: Event, t: Nucleus, a: int, i: nat) returns (j: nat)
    requires Inv(s) && Step(s, e, t) && a in s.sem && !IsDevice(a) && i < |QueueOf(s.blocked, a)|
    ensures WaiterAdvanced(s, e, t, a, i, j)
  {
    if e.Terminate? {
      var gone, reaped :| Dies(s, gone, reaped) && t == Schedule(reaped);
      j := WaiterDeath(s, gone, reaped, a, i);
    } else {
      QueueSteps(s, e, t, a);
      if e == V(a) { HeadWakes(s, t, a); }
      j := if e == V(a) && i > 0 then i - 1 else i;
    }
  }

  ghost predicate WaiterAdvanced(s: Nucleus, e: Event, t: Nucleus, a: int, i: nat, j: nat)
    requires i < |QueueOf(s.blocked, a)|
  {
    var p := QueueOf(s.blocked, a)[i];
    || p in t.free
    || (e == V(a) && i == 0 && Runnable(t, p))
    || (j < |QueueOf(t.blocked, a)| && QueueOf(t.blocked, a)[j] == p && j + (if e == V(a) then 1 else 0) <= i)
  }

  lemma HeadWakes(s: Nucleus, t: Nucleus, a: int)
    requires Step(s, V(a), t) && QueueOf(s.blocked, a) != [] && a in s.sem && s.sem[a] < 0
    ensures Runnable(t, QueueOf(s.blocked, a)[0])
  {
  }

  lemma WaiterDeath(s: Nucleus, gone: set<Pid>, t: Nucleus, a: int, i: nat) returns (j: nat)
    requires Ascending(s.blocked.descs) && Reaped(s, gone, t) && i < |QueueOf(s.blocked, a)|
    ensures WaiterAdvanced(s, Terminate, Schedule(t), a, i, j)
  {
    var q: seq<Pid> := QueueOf(s.blocked, a);
    WithoutAllQueue(s.blocked, gone, a);
    j := 0;
    if q[i] in gone {
      DeadAreFree(s, gone, t, q[i]);
    } else {
      j := WithoutAdvances<Pid>(q, gone, i);
    }
  }

  /** V is first in, first out: in every safe run from boot, the waiter at position `i` is
      released by the `i + 1`-st V at the latest, unless it is killed first. */
  lemma BoundedWait(memory: map<int, int>, states: seq<Nucleus>, events: seq<Event>, a: int, n: nat, i: nat)
    returns (k: nat)
    requires Safe(memory, states, events) && n <= |events| && a in states[n].sem && !IsDevice(a)
    requires i < |QueueOf(states[n].blocked, a)| && Times(events[n..], V(a)) > i
    ensures n < k < |states|
    ensures var p := QueueOf(states[n].blocked, a)[i]; Runnable(states[k], p) || p in states[k].free
  {
    SafeRun(memory, states, events);
    SuffixOfRun(states, events, n);
    k := ReleasedSoon(states[n..], events[n..], a, i);
    k := n + k;
  }

  lemma {:induction false} ReleasedSoon(states: seq<Nucleus>, events: seq<Event>, a: int, i: nat) returns (k: nat)
    requires Run(states, events) && Sound(states) && a in states[0].sem && !IsDevice(a)
    requires i < |QueueOf(states[0].blocked, a)| && Times(events, V(a)) > i
    ensures 0 < k < |states|
    ensures var p := QueueOf(states[0].blocked, a)[i]; Runnable(states[k], p) || p in states[k].free
    decreases |events|
  {
    var p := QueueOf(states[0].blocked, a)[i];
    assert events == [events[0]] + events[1..];
    TailOfRun(states, events);
    var j := WaiterAdvances(states[0], events[0], states[1], a, i);
    if p in states[1].free || Runnable(states[1], p) {
      k := 1;
    } else {
      assert CLOCK == DeviceSem(48) && CLOCK in states[0].sem;
      StepKeepsWords(states[0], events[0], states[1]);
      k := ReleasedSoon(states[1..], events[1..], a, j);
      k := k + 1;
    }
  }
}
