/** A semaphore that starts at 1 is a lock: V hands it straight to the first waiter, and a
    process that is killed while it holds the lock keeps it for ever. */
module Mutex {
  import opened Sequences
  import opened SemaphoreLists
  import Locks
  import opened NucleusState
  import opened NucleusSteps
  import opened Runs
  import opened SafeRuns
  import opened Fairness

  /** The processes between their P and their V, and how many were killed there. */
  datatype Holders = Holders(alive: set<Pid>, lost: nat)

  ghost function Entered(h: Holders, m: int, s: Nucleus, e: Event, t: Nucleus): Holders {
    match e
    case P(a) => if a == m && m in s.sem && s.sem[m] > 0 then h.(alive := h.alive + Caller(s)) else h
    case V(a) => if a == m then h.(alive := h.alive - Caller(s) + FirstWaiter(s, m)) else h
    case Terminate =>
      var dead := set p | p in h.alive && p in t.free;
      Holders(h.alive - dead, h.lost + |dead|)
    case _ => h
  }

  function Caller(s: Nucleus): set<Pid> {
    if s.current == None then {} else {s.current.value}
  }

  function FirstWaiter(s: Nucleus, m: int): set<Pid> {
    if QueueOf(s.blocked, m) == [] then {} else {QueueOf(s.blocked, m)[0]}
  }

  // ---- P and V, seen from the semaphore

  function LockOf(s: Nucleus, m: int): Locks.Lock<Pid>
    requires m in s.sem
  {
    Locks.Lock(s.sem[m], QueueOf(s.blocked, m))
  }

  /** SYS3 is P: the caller passes and stays in the processor, or it waits. */
  lemma PasserenIsP(s: Nucleus, m: int)
    requires Inv(s) && s.current.Some? && m in s.sem && !IsDevice(m) && (s.sem[m] <= 0 ==> CanBlock(s.blocked, m))
    ensures var t, r := Passeren(s, m), Locks.P(LockOf(s, m), s.current.value);
            m in t.sem && LockOf(t, m) == r.0
            && (r.1 ==> t.current == s.current) && (!r.1 ==> t == Schedule(Block(Add(s, m, -1), m)))
  {
    InsertIsAppend(s.blocked, m, s.current.value, m);
  }

  /** SYS4 is V: who passes joins the ready queue. */
  lemma VerhogenIsV(s: Nucleus, m: int)
    requires Inv(s) && s.current.Some? && m in s.sem && !IsDevice(m)
    ensures var t, r := Verhogen(s, m), Locks.V(LockOf(s, m));
            m in t.sem && LockOf(t, m) == r.0 && t.ready == s.ready + if r.1.Some? then [r.1.value] else []
  {
    RemoveIsTail(s.blocked, m, m);
  }

  /** Only a process that holds the lock gives it back. */
  ghost predicate Disciplined(h: Holders, m: int, s: Nucleus, e: Event) {
    e == V(m) && s.current.Some? ==> s.current.value in h.alive
  }

  /** Value = 1 - holders - waiters, and at most one process is inside. */
  ghost predicate Exclusive(h: Holders, m: int, s: Nucleus) {
    && m in s.sem && s.sem[m] == 1 - |h.alive| - h.lost - |QueueOf(s.blocked, m)|
    && |h.alive| + h.lost <= 1
    && (forall p :: p in h.alive ==> p !in s.free)
  }

  /** What the balance of a semaphore says about its holders. */
  lemma AtMostOne(s: Nucleus, m: int, inside: int)
    requires Balanced(s) && m in s.sem && !IsDevice(m) && s.sem[m] == 1 - inside - |QueueOf(s.blocked, m)|
    ensures inside <= 1
    ensures s.sem[m] > 0 ==> inside <= 0
  {
  }

  lemma NobodyDies(s: Nucleus, e: Event, t: Nucleus, p: Pid)
    requires Inv(s) && Step(s, e, t) && !e.Terminate? && p !in s.free
    ensures p !in t.free
  {
    if e.Tick? {
      NobodyDiesOfTick(s, p);
    } else {
      NobodyDiesOtherwise(s, e, t, p);
    }
  }

  lemma NobodyDiesOfTick(s: Nucleus, p: Pid)
    requires Inv(s) && p !in s.free
    ensures p !in ClockTick(s).free
  {
    DrainKeeps(s);
  }

  lemma NobodyDiesOtherwise(s: Nucleus, e: Event, t: Nucleus, p: Pid)
    requires Step(s, e, t) && !e.Terminate? && !e.Tick? && p !in s.free
    ensures p !in t.free
  {
  }

  lemma ReapedSem(s: Nucleus, gone: set<Pid>, t: Nucleus, m: int)
    requires Inv(s) && Reaped(s, gone, t) && m in s.sem && !IsDevice(m)
    ensures t.sem[m] + |QueueOf(t.blocked, m)| == s.sem[m] + |QueueOf(s.blocked, m)|
  {
    WithoutAllQueue(s.blocked, gone, m);
  }

  lemma LockDeaths(h: Holders, m: int, s: Nucleus, t: Nucleus)
    requires Inv(s) && Step(s, Terminate, t) && m in s.sem && !IsDevice(m) && Exclusive(h, m, s)
    ensures m in t.sem && Exclusive(Entered(h, m, s, Terminate, t), m, t)
  {
    var gone, reaped :| Dies(s, gone, reaped) && t == Schedule(reaped);
    ReapedSem(s, gone, reaped, m);
    LockDeathsAs(h, m, s, t);
  }

  lemma LockDeathsAs(h: Holders, m: int, s: Nucleus, t: Nucleus)
    requires m in s.sem && m in t.sem && Exclusive(h, m, s) && Step(s, Terminate, t)
    requires t.sem[m] + |QueueOf(t.blocked, m)| == s.sem[m] + |QueueOf(s.blocked, m)|
    ensures Exclusive(Entered(h, m, s, Terminate, t), m, t)
  {
    var dead := set p | p in h.alive && p in t.free;
    assert h.alive == (h.alive - dead) + dead;
  }

  lemma SemSteps(s: Nucleus, e: Event, t: Nucleus, m: int)
    requires Step(s, e, t) && !e.Terminate? && m in s.sem && !IsDevice(m)
    ensures m in t.sem
    ensures t.sem[m] - s.sem[m] == if e == P(m) then -1 else if e == V(m) then 1 else 0
  {
    StepSem(s, e, t);
    if e.Device? { assert DeviceSem(e.i) != m; }
  }

  lemma QueueLengthSteps(s: Nucleus, e: Event, t: Nucleus, m: int)
    requires Ascending(s.blocked.descs) && Step(s, e, t) && !e.Terminate? && m in s.sem && !IsDevice(m)
    requires e == P(m) && s.sem[m] <= 0 ==> CanBlock(s.blocked, m)
    requires e == V(m) && QueueOf(s.blocked, m) != [] ==> s.sem[m] < 0
    ensures |QueueOf(t.blocked, m)| - |QueueOf(s.blocked, m)|
         == if e == P(m) && s.sem[m] <= 0 then 1
            else if e == V(m) && QueueOf(s.blocked, m) != [] then -1
            else 0
  {
    if e.Tick? {
      DrainSpares(s, m);
    } else {
      ListSteps(s, e, t);
      if Target(e).Some? {
        InsertIsAppend(s.blocked, Target(e).value, s.current.value, m);
      } else if e.V? {
        RemoveIsTail(s.blocked, e.a, m);
      } else if e.Device? {
        RemoveIsTail(s.blocked, DeviceSem(e.i), m);
      }
    }
  }

  lemma LockStep(h: Holders, m: int, s: Nucleus, e: Event, t: Nucleus)
    requires Inv(s) && Step(s, e, t) && Fits(s, e) && Inv(t)
    requires m in s.sem && !IsDevice(m) && Exclusive(h, m, s) && Disciplined(h, m, s, e)
    ensures m in t.sem && Exclusive(Entered(h, m, s, e, t), m, t)
  {
    if e.Terminate? {
      LockDeaths(h, m, s, t);
    } else {
      SemSteps(s, e, t, m);
      QueueLengthSteps(s, e, t, m);
      AtMostOne(s, m, |h.alive| + h.lost);
      forall p | p in h.alive ensures p !in t.free { NobodyDies(s, e, t, p); }
      if e == V(m) {
        HandOver(h, m, s, t);
      }
    }
  }

  lemma HandOver(h: Holders, m: int, s: Nucleus, t: Nucleus)
    requires Inv(s) && Step(s, V(m), t) && m in s.sem && |h.alive| + h.lost <= 1 && s.current.Some?
    requires s.current.value in h.alive
    ensures var g := Entered(h, m, s, V(m), t);
            && g.lost == 0 && g.alive == FirstWaiter(s, m) && |g.alive| <= 1
            && forall p :: p in g.alive ==> p !in t.free
  {
    OnlyHolder(h, s.current.value);
    if QueueOf(s.blocked, m) != [] {
      WaiterLives(s, m, t);
    }
  }

  lemma OnlyHolder(h: Holders, c: Pid)
    requires |h.alive| + h.lost <= 1 && c in h.alive
    ensures h.alive - {c} == {} && h.lost == 0
  {
    assert h.alive == (h.alive - {c}) + {c};
  }

  lemma WaiterLives(s: Nucleus, m: int, t: Nucleus)
    requires Inv(s) && Step(s, V(m), t) && QueueOf(s.blocked, m) != []
    ensures QueueOf(s.blocked, m)[0] !in t.free
  {
    var w := QueueOf(s.blocked, m)[0];
    QueueWaits(s.blocked, m, w);
    SpotOf(s, w);
    NobodyDies(s, V(m), t, w);
  }

  /** The holders after each event of a run. */
  ghost function History(m: int, states: seq<Nucleus>, events: seq<Event>, n: nat): Holders
    requires |states| == |events| + 1 && n <= |events|
  {
    if n == 0 then Holders({}, 0)
    else Entered(History(m, states, events, n - 1), m, states[n - 1], events[n - 1], states[n])
  }

  /** Only holders give the lock back, throughout the run. */
  ghost predicate Disciplines(m: int, states: seq<Nucleus>, events: seq<Event>)
    requires |states| == |events| + 1
  {
    forall k :: 0 <= k < |events| ==> Disciplined(History(m, states, events, k), m, states[k], events[k])
  }

  /** Mutual exclusion: in every safe run from boot, if the lock starts free and only holders
      give it back, then never are two processes between P and V, whoever is killed. */
  lemma MutualExclusion(memory: map<int, int>, m: int, states: seq<Nucleus>, events: seq<Event>, n: nat)
    requires Safe(memory, states, events) && n <= |events|
    requires m in memory && memory[m] == 1 && !IsDevice(m)
    requires Disciplines(m, states, events)
    ensures Exclusive(History(m, states, events, n), m, states[n])
  {
    SafeRun(memory, states, events);
    StaysExclusive(m, states, events, n);
  }

  lemma {:induction false} StaysExclusive(m: int, states: seq<Nucleus>, events: seq<Event>, n: nat)
    requires Run(states, events) && Sound(states) && n <= |events|
    requires forall k :: 0 <= k < |events| ==> Fits(states[k], events[k])
    requires m in states[0].sem && !IsDevice(m) && states[0].sem[m] == 1 && Disciplines(m, states, events)
    ensures Exclusive(History(m, states, events, n), m, states[n])
  {
    if n == 0 {
      LockStartsFree(m, states, events);
    } else {
      StaysExclusive(m, states, events, n - 1);
      NextExclusive(m, states, events, n);
    }
  }

  lemma NextExclusive(m: int, states: seq<Nucleus>, events: seq<Event>, n: nat)
    requires Run(states, events) && Sound(states) && 0 < n <= |events| && !IsDevice(m)
    requires Fits(states[n - 1], events[n - 1]) && Disciplines(m, states, events)
    requires Exclusive(History(m, states, events, n - 1), m, states[n - 1])
    ensures Exclusive(History(m, states, events, n), m, states[n])
  {
    LockStep(History(m, states, events, n - 1), m, states[n - 1], events[n - 1], states[n]);
  }

  lemma LockStartsFree(m: int, states: seq<Nucleus>, events: seq<Event>)
    requires |states| == |events| + 1 && Sound(states)
    requires m in states[0].sem && !IsDevice(m) && states[0].sem[m] == 1
    ensures Exclusive(History(m, states, events, 0), m, states[0])
  {
    assert Inv(states[0]);
  }
}
