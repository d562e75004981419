/** Runs with what is saved of each process: a process that gives up the processor resumes
    where it stopped, however long that takes, and its account is the sum of its charges. */
module ContextRuns {
  import opened Sequences
  import opened SemaphoreLists
  import opened NucleusState
  import opened NucleusSteps
  import opened ProcessQueues
  import opened Contexts
  import opened Runs
  import opened SafeRuns
  import opened Fairness
  import opened Effects

  /** What comes with an exception: the state of the processor, what its timer shows, the
      arguments of SYS1, and what a device reports. */
  datatype Input = Input(saved: Cpu, timer: int, cpu: Cpu, support: int, status: int)

  /** The nucleus, what it keeps of each process, and the processor state it loaded last. */
  datatype Machine = Machine(s: Nucleus, saved: Contexts, loaded: Option<Cpu>)

  ghost predicate Moves(m: Machine, e: Event, x: Input, n: Machine) { n in Outcomes(m, e, x) }

  ghost function Outcomes(m: Machine, e: Event, x: Input): iset<Machine> {
    iset n: Machine |
      Total(m.saved) && Step(m.s, e, n.s) && n.saved == SavedAfter(m, e, x) && n.loaded == Loads(m, e, x, n)
  }

  ghost function SavedAfter(m: Machine, e: Event, x: Input): (r: Contexts)
    requires Total(m.saved) && exists t :: Step(m.s, e, t)
    ensures Total(r)
  {
    match e
    case Create => Charged(if m.s.free == [] then m.saved else Created(m.saved, m.s.free[0], x.cpu, x.support),
                           m.s.current.value, x.timer)
    case P(a) => if m.s.sem[a] > 0 then Charged(m.saved, m.s.current.value, x.timer)
                 else Stopped(m.saved, m.s.current.value, Past(x.saved), x.timer)
    case V(_) => Charged(m.saved, m.s.current.value, x.timer)
    case WaitIo(_) => Stopped(m.saved, m.s.current.value, Past(x.saved), x.timer)
    case WaitClock => Stopped(m.saved, m.s.current.value, Past(x.saved), x.timer)
    case Timer => Stopped(m.saved, m.s.current.value, x.saved, x.timer)
    case Device(i) => if Freed(m.s, DeviceSem(i)) == [] then m.saved
                      else Told(m.saved, Freed(m.s, DeviceSem(i))[0], x.status)
    case Terminate => m.saved
    case Tick => m.saved
  }

  ghost function Loads(m: Machine, e: Event, x: Input, n: Machine): Option<Cpu>
    requires Total(n.saved)
  {
    if Dispatches(m.s, e) then DispatchedIn(n.s, n.saved)
    else match e
      case Create => Some(Past(WithV0(x.saved, if m.s.free == [] then -1 else 0)))
      case Device(i) => Some(WithA1(x.saved, DeviceSem(i)))
      case Tick => Some(x.saved)
      case _ => Some(Past(x.saved))
  }

  /** A safe run of the machine from boot. */
  ghost predicate MachineRun(memory: map<int, int>, ms: seq<Machine>, es: seq<Event>, xs: seq<Input>) {
    && |ms| == |es| + 1 && |xs| == |es| && ms in MachineRuns(memory, es, xs)
    && forall n {:trigger ms[n]} :: 0 <= n < |ms| ==> Total(ms[n].saved)
  }

  ghost function MachineRuns(memory: map<int, int>, es: seq<Event>, xs: seq<Input>): iset<seq<Machine>> {
    iset ms: seq<Machine> | forall k: bool {:trigger Key(k)} :: Key(k) ==> IsMachineRun(memory, ms, es, xs)
  }

  ghost predicate IsMachineRun(memory: map<int, int>, ms: seq<Machine>, es: seq<Event>, xs: seq<Input>) {
    && |ms| == |es| + 1 && |xs| == |es| && Safe(memory, StatesOf(ms), es)
    && forall n :: 0 <= n < |es| ==> Moves(ms[n], es[n], xs[n], ms[n + 1])
  }

  function StatesOf(ms: seq<Machine>): seq<Nucleus> {
    seq(|ms|, n requires 0 <= n < |ms| => ms[n].s)
  }

  lemma MoveIn(memory: map<int, int>, ms: seq<Machine>, es: seq<Event>, xs: seq<Input>, n: nat)
    requires MachineRun(memory, ms, es, xs) && n < |es|
    ensures Inv(ms[n].s) && Inv(ms[n + 1].s) && Moves(ms[n], es[n], xs[n], ms[n + 1])
    ensures Fits(ms[n].s, es[n])
  {
    assert Key(true);
    SafeRun(memory, StatesOf(ms), es);
    assert Inv(StatesOf(ms)[n]) && Inv(StatesOf(ms)[n + 1]);
    assert Fits(StatesOf(ms)[n], es[n]);
  }

  // ---- one step

  /** An exception leaves alone what is saved of a living process that does not run, but for
      the status in v0 of the waiter that a device releases. */
  lemma OthersKeepTheirs(m: Machine, e: Event, x: Input, n: Machine, p: Pid)
    requires Moves(m, e, x, n) && m.s.current != Some(p) && p !in m.s.free
    ensures n.saved[p] == if e.Device? && Freed(m.s, DeviceSem(e.i)) == [p]
                          then Context(WithV0(m.saved[p].cpu, x.status), m.saved[p].time, m.saved[p].support)
                          else m.saved[p]
  {
  }

  /** A new process has the state and the support structure its parent named, and no time used. */
  lemma NewcomerStarts(m: Machine, e: Event, x: Input, n: Machine, p: Pid)
    requires Inv(m.s) && Moves(m, e, x, n) && p in m.s.free && p !in n.s.free
    ensures e == Create && n.saved[p] == Context(x.cpu, 0, if x.support == 0 then NULL_ADDR else x.support)
  {
    FreeStays(m.s, e, n.s, p);
    SpotOf(m.s, p);
  }

  /** Whether the running process is charged for its time. */
  predicate Charges(e: Event) { e.Create? || e.P? || e.V? || e.WaitIo? || e.WaitClock? || e.Timer? }

  /** The running process keeps its support structure, and what it is charged is the time since
      the timer was loaded. */
  lemma RunnerIsCharged(m: Machine, e: Event, x: Input, n: Machine, p: Pid)
    requires Inv(m.s) && Moves(m, e, x, n) && m.s.current == Some(p)
    ensures n.saved[p].support == m.saved[p].support
    ensures n.saved[p].time - m.saved[p].time == if Charges(e) then TIME_SLICE - x.timer else 0
  {
    assert e.Create? && m.s.free != [] ==> m.s.free[0] != p;
    if e.Device? { RunnerWaitsNowhere(m.s, p, DeviceSem(e.i)); }
  }

  lemma RunnerWaitsNowhere(s: Nucleus, p: Pid, a: int)
    requires Inv(s) && s.current == Some(p)
    ensures p !in QueueOf(s.blocked, a) && s.procs[p].semAdd == NULL_ADDR
  {
    SpotOf(s, p);
    if p in QueueOf(s.blocked, a) { QueueWaits(s.blocked, a, p); }
  }

  /** What a process that gives up the processor leaves to be resumed in. */
  lemma StoppedAt(m: Machine, e: Event, x: Input, n: Machine, p: Pid)
    requires Moves(m, e, x, n) && m.s.current == Some(p) && Dispatches(m.s, e) && !e.Terminate?
    ensures n.saved[p].cpu == if e.Timer? then x.saved else Past(x.saved)
  {
  }

  lemma WaitsAt(s: Nucleus, p: Pid, a: int)
    requires Structured(s) && p !in s.free
    ensures p in QueueOf(s.blocked, a) <==> s.procs[p].semAdd == a && a != NULL_ADDR
  {
    SpotOf(s, p);
    if p in QueueOf(s.blocked, a) {
      QueueWaits(s.blocked, a, p);
      WaitsThere(s.blocked, a, s.procs[p].semAdd, p);
    }
  }

  /** A waiter keeps its semaphore until it is released. */
  lemma SemAddStep(s: Nucleus, e: Event, t: Nucleus, p: Pid)
    requires Inv(s) && Structured(t) && Step(s, e, t) && s.current != Some(p) && p !in s.free && p !in t.free
    ensures t.procs[p].semAdd == s.procs[p].semAdd || t.procs[p].semAdd == NULL_ADDR
  {
    QueuesStep(s, e, t, t.procs[p].semAdd);
    WaiterMoves(s, e, t, p);
  }

  lemma WaiterMoves(s: Nucleus, e: Event, t: Nucleus, p: Pid)
    requires Structured(s) && Structured(t) && QueueMoves(s, e, t, t.procs[p].semAdd)
    requires s.current != Some(p) && p !in s.free && p !in t.free
    ensures t.procs[p].semAdd == s.procs[p].semAdd || t.procs[p].semAdd == NULL_ADDR
  {
    var b := t.procs[p].semAdd;
    WaitsAt(t, p, b);
    WaitsAt(s, p, b);
    if e.Terminate? { WithoutMembers<Pid>(QueueOf(s.blocked, b), DeadIn(t, QueueOf(s.blocked, b))); }
  }

  /** From a device it is released by an interrupt of that device, and as its first waiter. */
  lemma DeviceStep(s: Nucleus, e: Event, t: Nucleus, p: Pid, i: nat)
    requires Inv(s) && Structured(t) && Step(s, e, t) && s.current != Some(p) && p !in s.free && p !in t.free
    requires i < 48 && s.procs[p].semAdd == DeviceSem(i)
    ensures t.procs[p].semAdd == if e == Device(i) && Freed(s, DeviceSem(i)) == [p] then NULL_ADDR else DeviceSem(i)
  {
    QueuesStep(s, e, t, DeviceSem(i));
    SemAddStep(s, e, t, p);
    DeviceMoves(s, e, t, p, i);
  }

  lemma DeviceMoves(s: Nucleus, e: Event, t: Nucleus, p: Pid, i: nat)
    requires Structured(s) && Structured(t) && QueueMoves(s, e, t, DeviceSem(i)) && (e.V? ==> !IsDevice(e.a))
    requires s.current != Some(p) && p !in s.free && p !in t.free && i < 48 && s.procs[p].semAdd == DeviceSem(i)
    requires t.procs[p].semAdd == DeviceSem(i) || t.procs[p].semAdd == NULL_ADDR
    ensures t.procs[p].semAdd == NULL_ADDR <==> e == Device(i) && Freed(s, DeviceSem(i)) == [p]
  {
    var a := DeviceSem(i);
    var q := QueueOf(s.blocked, a);
    WaitsAt(s, p, a);
    WaitsAt(t, p, a);
    if e.Terminate? { WithoutMembers<Pid>(q, DeadIn(t, q)); }
    if q != [] { HeadOnce(s, a); }
  }

  /** Nobody waits twice. */
  lemma HeadOnce(s: Nucleus, a: int)
    requires Structured(s) && QueueOf(s.blocked, a) != []
    ensures QueueOf(s.blocked, a)[0] !in QueueOf(s.blocked, a)[1..]
  {
    var q: seq<Pid> := QueueOf(s.blocked, a);
    SpotOf(s, q[0]);
    WaitingMember(s.blocked.descs, Slot(s.blocked.descs, a));
    assert q == [q[0]] + q[1..];
    CountOfMember<Pid>(q[1..], q[0]);
    assert multiset(q)[q[0]] <= 1;
  }

  // ---- whole runs

  /** From `a` to `b` process `p` lives and does not run, but may be dispatched at the end. */
  ghost predicate Off(ms: seq<Machine>, p: Pid, a: nat, b: nat)
    requires b < |ms|
  {
    && (forall n {:trigger ms[n]} :: a <= n <= b ==> p !in ms[n].s.free)
    && (forall n {:trigger ms[n]} :: a <= n < b ==> ms[n].s.current != Some(p))
  }

  ghost predicate OnDevice(s: Nucleus, p: Pid) { exists i: nat :: i < 48 && s.procs[p].semAdd == DeviceSem(i) }

  /** Off the processor, and not at a device, nothing that is saved of a process changes. */
  lemma {:induction false} OffKeeps(memory: map<int, int>, ms: seq<Machine>, es: seq<Event>, xs: seq<Input>,
                                    p: Pid, a: nat, b: nat)
    requires MachineRun(memory, ms, es, xs) && a <= b < |ms| && Off(ms, p, a, b) && !OnDevice(ms[a].s, p)
    ensures ms[b].saved[p] == ms[a].saved[p] && !OnDevice(ms[b].s, p)
    decreases b
  {
    if a < b {
      OffKeeps(memory, ms, es, xs, p, a, b - 1);
      OffAt(memory, ms, es, xs, p, b - 1);
    }
  }

  lemma OffAt(memory: map<int, int>, ms: seq<Machine>, es: seq<Event>, xs: seq<Input>, p: Pid, n: nat)
    requires MachineRun(memory, ms, es, xs) && n < |es| && !OnDevice(ms[n].s, p)
    requires ms[n].s.current != Some(p) && p !in ms[n].s.free && p !in ms[n + 1].s.free
    ensures ms[n + 1].saved[p] == ms[n].saved[p] && !OnDevice(ms[n + 1].s, p)
  {
    MoveIn(memory, ms, es, xs, n);
    OffStep(ms[n], es[n], xs[n], ms[n + 1], p);
  }

  lemma OffStep(m: Machine, e: Event, x: Input, n: Machine, p: Pid)
    requires Inv(m.s) && Inv(n.s) && Moves(m, e, x, n) && !OnDevice(m.s, p)
    requires m.s.current != Some(p) && p !in m.s.free && p !in n.s.free
    ensures n.saved[p] == m.saved[p] && !OnDevice(n.s, p)
  {
    SemAddStep(m.s, e, n.s, p);
    OthersKeepTheirs(m, e, x, n, p);
    if e.Device? && Freed(m.s, DeviceSem(e.i)) == [p] { WakesItsOwn(m.s, p, e.i); }
    assert forall i: nat :: i < 48 ==> NULL_ADDR != DeviceSem(i);
  }

  lemma WakesItsOwn(s: Nucleus, p: Pid, i: nat)
    requires Structured(s) && p !in s.free && Freed(s, DeviceSem(i)) == [p]
    ensures s.procs[p].semAdd == DeviceSem(i)
  {
    WaitsAt(s, p, DeviceSem(i));
  }

  /** At a device it stays for one interrupt of that device, whose status it then has in v0. */
  lemma {:induction false} OffAtDevice(memory: map<int, int>, ms: seq<Machine>, es: seq<Event>, xs: seq<Input>,
                                       p: Pid, i: nat, a: nat, b: nat) returns (k: nat)
    requires MachineRun(memory, ms, es, xs) && a <= b < |ms| && Off(ms, p, a, b)
    requires i < 48 && ms[a].s.procs[p].semAdd == DeviceSem(i) && ms[b].s.procs[p].semAdd == NULL_ADDR
    ensures a <= k < b && es[k] == Device(i)
    ensures ms[b].saved[p] == ms[a].saved[p].(cpu := WithV0(ms[a].saved[p].cpu, xs[k].status))
    decreases b - a
  {
    assert a < b;
    AtDeviceAt(memory, ms, es, xs, p, i, a);
    if OnDevice(ms[a + 1].s, p) {
      k := OffAtDevice(memory, ms, es, xs, p, i, a + 1, b);
    } else {
      OffKeeps(memory, ms, es, xs, p, a + 1, b);
      k := a;
    }
  }

  lemma AtDeviceStep(m: Machine, e: Event, x: Input, n: Machine, p: Pid, i: nat)
    requires Inv(m.s) && Inv(n.s) && Moves(m, e, x, n) && i < 48 && m.s.procs[p].semAdd == DeviceSem(i)
    requires m.s.current != Some(p) && p !in m.s.free && p !in n.s.free
    ensures if OnDevice(n.s, p) then n.s.procs[p].semAdd == DeviceSem(i) && n.saved[p] == m.saved[p]
            else e == Device(i) && n.saved[p] == m.saved[p].(cpu := WithV0(m.saved[p].cpu, x.status))
  {
    DeviceStep(m.s, e, n.s, p, i);
    OthersKeepTheirs(m, e, x, n, p);
    if e.Device? && Freed(m.s, DeviceSem(e.i)) == [p] { WakesItsOwn(m.s, p, e.i); }
    assert forall j: nat :: j < 48 ==> NULL_ADDR != DeviceSem(j);
  }

  lemma AtDeviceAt(memory: map<int, int>, ms: seq<Machine>, es: seq<Event>, xs: seq<Input>, p: Pid, i: nat, n: nat)
    requires MachineRun(memory, ms, es, xs) && n < |es| && i < 48 && ms[n].s.procs[p].semAdd == DeviceSem(i)
    requires ms[n].s.current != Some(p) && p !in ms[n].s.free && p !in ms[n + 1].s.free
    ensures if OnDevice(ms[n + 1].s, p)
            then ms[n + 1].s.procs[p].semAdd == DeviceSem(i) && ms[n + 1].saved[p] == ms[n].saved[p]
            else es[n] == Device(i)
                 && ms[n + 1].saved[p] == ms[n].saved[p].(cpu := WithV0(ms[n].saved[p].cpu, xs[n].status))
  {
    MoveIn(memory, ms, es, xs, n);
    AtDeviceStep(ms[n], es[n], xs[n], ms[n + 1], p, i);
  }

  /** Who did not run and now does was dispatched, in the state saved for it. */
  lemma NewRunner(m: Machine, e: Event, x: Input, n: Machine, p: Pid)
    requires Inv(m.s) && Inv(n.s) && Moves(m, e, x, n) && Total(n.saved) && n.s.current == Some(p)
    requires m.s.current != Some(p) || Dispatches(m.s, e)
    ensures n.loaded == Some(n.saved[p].cpu) && n.s.procs[p].semAdd == NULL_ADDR
  {
    ReadyStep(m.s, e, n.s);
    RunnerWaitsNowhere(n.s, p, 0);
  }

  /** Whoever ran comes to a device by SYS5 only. */
  lemma ArrivesAt(s: Nucleus, e: Event, t: Nucleus, p: Pid, i: nat)
    requires Inv(s) && Inv(t) && Step(s, e, t) && Fits(s, e) && s.current == Some(p) && p !in t.free && i < 48
    ensures t.procs[p].semAdd == DeviceSem(i) <==> e == WaitIo(i)
  {
    QueuesStep(s, e, t, DeviceSem(i));
    RunnerWaitsNowhere(s, p, DeviceSem(i));
    if e == WaitIo(i) { assert DeviceSem(i) in s.sem && s.sem[DeviceSem(i)] <= 0; }
    RunnerMoves(s, e, t, p, i);
  }

  lemma RunnerMoves(s: Nucleus, e: Event, t: Nucleus, p: Pid, i: nat)
    requires Structured(t) && QueueMoves(s, e, t, DeviceSem(i)) && p !in t.free && i < 48
    requires s.current == Some(p) && p !in QueueOf(s.blocked, DeviceSem(i)) && (e.P? ==> !IsDevice(e.a))
    requires e == WaitIo(i) ==>
               DeviceSem(i) in s.sem && s.sem[DeviceSem(i)] <= 0 && CanBlock(s.blocked, DeviceSem(i))
    ensures t.procs[p].semAdd == DeviceSem(i) <==> e == WaitIo(i)
  {
    WaitsAt(t, p, DeviceSem(i));
    var q := QueueOf(s.blocked, DeviceSem(i));
    if e.Terminate? { WithoutMembers<Pid>(q, DeadIn(t, q)); }
  }

  lemma TerminateEnds(s: Nucleus, t: Nucleus, p: Pid)
    requires Inv(s) && Step(s, Terminate, t) && s.current == Some(p)
    ensures p in t.free
  {
    var gone := DeathStep(s, t);
    assert p !in Live(t);
  }

  /** Process `p` gives up the processor at step `i` and has it again after step `j`. */
  ghost predicate Away(ms: seq<Machine>, es: seq<Event>, p: Pid, i: nat, j: nat) {
    && i <= j < |es| == |ms| - 1 && ms[i].s.current == Some(p) && Dispatches(ms[i].s, es[i])
    && Off(ms, p, i + 1, j + 1) && ms[j + 1].s.current == Some(p)
  }

  lemma LeavesAt(memory: map<int, int>, ms: seq<Machine>, es: seq<Event>, xs: seq<Input>, p: Pid, i: nat)
    requires MachineRun(memory, ms, es, xs) && i < |es| && ms[i].s.current == Some(p) && Dispatches(ms[i].s, es[i])
    requires p !in ms[i + 1].s.free
    ensures ms[i + 1].saved[p].cpu == if es[i].Timer? then xs[i].saved else Past(xs[i].saved)
    ensures if es[i].WaitIo? then es[i].i < 48 && ms[i + 1].s.procs[p].semAdd == DeviceSem(es[i].i)
            else !OnDevice(ms[i + 1].s, p)
  {
    MoveIn(memory, ms, es, xs, i);
    if es[i].Terminate? { TerminateEnds(ms[i].s, ms[i + 1].s, p); }
    StoppedAt(ms[i], es[i], xs[i], ms[i + 1], p);
    forall d: nat | d < 48 ensures ms[i + 1].s.procs[p].semAdd == DeviceSem(d) <==> es[i] == WaitIo(d) {
      ArrivesAt(ms[i].s, es[i], ms[i + 1].s, p, d);
    }
  }

  lemma ReturnsAt(memory: map<int, int>, ms: seq<Machine>, es: seq<Event>, xs: seq<Input>, p: Pid, j: nat)
    requires MachineRun(memory, ms, es, xs) && j < |es| && ms[j + 1].s.current == Some(p)
    requires ms[j].s.current != Some(p) || Dispatches(ms[j].s, es[j])
    ensures ms[j + 1].loaded == Some(ms[j + 1].saved[p].cpu) && ms[j + 1].s.procs[p].semAdd == NULL_ADDR
  {
    MoveIn(memory, ms, es, xs, j);
    NewRunner(ms[j], es[j], xs[j], ms[j + 1], p);
  }

  /** What is saved of `p` from when it left to when it returns. */
  lemma AwaySaved(memory: map<int, int>, ms: seq<Machine>, es: seq<Event>, xs: seq<Input>, p: Pid, e: Event,
                  a: nat, b: nat) returns (k: nat)
    requires MachineRun(memory, ms, es, xs) && a <= b < |ms| && Off(ms, p, a, b)
    requires ms[b].s.procs[p].semAdd == NULL_ADDR
    requires if e.WaitIo? then e.i < 48 && ms[a].s.procs[p].semAdd == DeviceSem(e.i) else !OnDevice(ms[a].s, p)
    ensures e.WaitIo? ==> a <= k < b && es[k] == Device(e.i)
    ensures ms[b].saved[p].cpu == if e.WaitIo? then WithV0(ms[a].saved[p].cpu, xs[k].status) else ms[a].saved[p].cpu
  {
    k := a;
    if e.WaitIo? {
      k := OffAtDevice(memory, ms, es, xs, p, e.i, a, b);
    } else {
      OffKeeps(memory, ms, es, xs, p, a, b);
    }
  }

  lemma LoadedAgain(memory: map<int, int>, ms: seq<Machine>, es: seq<Event>, xs: seq<Input>, p: Pid, i: nat, j: nat)
    returns (k: nat)
    requires MachineRun(memory, ms, es, xs) && Away(ms, es, p, i, j)
    ensures es[i].WaitIo? ==> i < k <= j && es[k] == Device(es[i].i)
    ensures ms[j + 1].loaded ==
            Some(if es[i].WaitIo? then WithV0(Past(xs[i].saved), xs[k].status)
                 else if es[i].Timer? then xs[i].saved
                 else Past(xs[i].saved))
  {
    LeavesAt(memory, ms, es, xs, p, i);
    ReturnsAt(memory, ms, es, xs, p, j);
    k := AwaySaved(memory, ms, es, xs, p, es[i], i + 1, j + 1);
  }

  /** A process that gave up the processor resumes with the registers it had, 4 past the system
      call or where its time slice ended. Only if it waited for a device, its register v0 holds
      the status from the interrupt that ended the wait. */
  lemma ResumesWhereItStopped(memory: map<int, int>, ms: seq<Machine>, es: seq<Event>, xs: seq<Input>,
                              p: Pid, i: nat, j: nat) returns (k: nat)
    requires MachineRun(memory, ms, es, xs) && Away(ms, es, p, i, j)
    ensures es[i].WaitIo? ==> i < k <= j && es[k] == Device(es[i].i)
    ensures ms[j + 1].loaded.Some?
    ensures var was, now := xs[i].saved, ms[j + 1].loaded.value;
            && now.pc == (if es[i].Timer? then was.pc else (was.pc + 4) % 0x1_0000_0000)
            && now.entryHi == was.entryHi && now.cause == was.cause && now.status == was.status
            && forall r :: 0 <= r < 31 ==> now.reg[r] == if es[i].WaitIo? && r == 1 then xs[k].status else was.reg[r]
  {
    k := LoadedAgain(memory, ms, es, xs, p, i, j);
  }

  /** A new process starts in the state its parent named. */
  lemma StartsAsTold(memory: map<int, int>, ms: seq<Machine>, es: seq<Event>, xs: seq<Input>, p: Pid, i: nat, j: nat)
    requires MachineRun(memory, ms, es, xs) && i < j < |es| && p in ms[i].s.free
    requires Off(ms, p, i + 1, j + 1) && ms[j + 1].s.current == Some(p)
    ensures es[i] == Create && ms[j + 1].loaded == Some(xs[i].cpu)
    ensures ms[j + 1].saved[p] == Context(xs[i].cpu, 0, if xs[i].support == 0 then NULL_ADDR else xs[i].support)
  {
    StartsAt(memory, ms, es, xs, p, i);
    ReturnsAt(memory, ms, es, xs, p, j);
    OffKeeps(memory, ms, es, xs, p, i + 1, j + 1);
  }

  lemma StartsAt(memory: map<int, int>, ms: seq<Machine>, es: seq<Event>, xs: seq<Input>, p: Pid, i: nat)
    requires MachineRun(memory, ms, es, xs) && i < |es| && p in ms[i].s.free && p !in ms[i + 1].s.free
    ensures es[i] == Create && !OnDevice(ms[i + 1].s, p)
    ensures ms[i + 1].saved[p] == Context(xs[i].cpu, 0, if xs[i].support == 0 then NULL_ADDR else xs[i].support)
  {
    MoveIn(memory, ms, es, xs, i);
    NewcomerStarts(ms[i], es[i], xs[i], ms[i + 1], p);
    FreeStays(ms[i].s, es[i], ms[i + 1].s, p);
    CreateStep(ms[i].s, ms[i + 1].s);
    assert forall d: nat :: d < 48 ==> NULL_ADDR != DeviceSem(d);
  }

  // ---- a process that keeps the processor

  /** A call that does not give up the processor returns 4 past it, with 0 or -1 in v0 if it was
      SYS1; an interrupted process goes on where it was, but a device leaves the address of its
      semaphore in register a1. No other register changes. */
  lemma GoesOn(m: Machine, e: Event, x: Input, n: Machine)
    requires Moves(m, e, x, n) && !Dispatches(m.s, e)
    ensures n.loaded.Some?
    ensures var was, now := x.saved, n.loaded.value;
            && now.pc == (if e.Device? || e.Tick? then was.pc else (was.pc + 4) % 0x1_0000_0000)
            && now.entryHi == was.entryHi && now.cause == was.cause && now.status == was.status
            && forall r :: 0 <= r < 31 ==>
                 now.reg[r] == if e.Create? && r == 1 then (if m.s.free == [] then -1 else 0)
                               else if e.Device? && r == 4 then DeviceSem(e.i)
                               else was.reg[r]
  {
  }

  /** So a device interrupt is invisible to the process it interrupts if and only if register a1
      already held that address. */
  lemma DeviceSparesIff(m: Machine, i: nat, x: Input, n: Machine)
    requires Moves(m, Device(i), x, n) && m.s.current.Some?
    ensures n.loaded == Some(x.saved) <==> x.saved.reg[4] == DeviceSem(i)
  {
    if x.saved.reg[A1] == DeviceSem(i) {
      assert x.saved.reg[A1 := DeviceSem(i)] == x.saved.reg;
    }
  }

  // ---- accounts

  /** What `p` is charged from `a` to `b`. */
  ghost function ChargedFor(ms: seq<Machine>, es: seq<Event>, xs: seq<Input>, p: Pid, a: nat, b: nat): int
    requires a <= b <= |es| == |xs| < |ms|
    decreases b
  {
    if a == b then 0
    else ChargedFor(ms, es, xs, p, a, b - 1) + Fee(ms[b - 1].s, es[b - 1], xs[b - 1], p)
  }

  ghost function Fee(s: Nucleus, e: Event, x: Input, p: Pid): int {
    if s.current == Some(p) && Charges(e) then TIME_SLICE - x.timer else 0
  }

  lemma FeeStep(m: Machine, e: Event, x: Input, n: Machine, p: Pid)
    requires Inv(m.s) && Moves(m, e, x, n) && Total(n.saved) && p !in m.s.free
    ensures n.saved[p].time == m.saved[p].time + Fee(m.s, e, x, p) && n.saved[p].support == m.saved[p].support
  {
    if m.s.current == Some(p) { RunnerIsCharged(m, e, x, n, p); } else { OthersKeepTheirs(m, e, x, n, p); }
  }

  /** As long as a process lives, its account grows by what it is charged while it runs, and
      its support structure stays. */
  lemma {:induction false} AccountIsSum(memory: map<int, int>, ms: seq<Machine>, es: seq<Event>, xs: seq<Input>,
                                        p: Pid, a: nat, b: nat)
    requires MachineRun(memory, ms, es, xs) && a <= b < |ms|
    requires forall n {:trigger ms[n]} :: a <= n <= b ==> p !in ms[n].s.free
    ensures ms[b].saved[p].time == ms[a].saved[p].time + ChargedFor(ms, es, xs, p, a, b)
    ensures ms[b].saved[p].support == ms[a].saved[p].support
    decreases b
  {
    if a < b {
      AccountIsSum(memory, ms, es, xs, p, a, b - 1);
      FeeAt(memory, ms, es, xs, p, b - 1);
    }
  }

  lemma FeeAt(memory: map<int, int>, ms: seq<Machine>, es: seq<Event>, xs: seq<Input>, p: Pid, n: nat)
    requires MachineRun(memory, ms, es, xs) && n < |es| && p !in ms[n].s.free
    ensures ms[n + 1].saved[p].time == ms[n].saved[p].time + Fee(ms[n].s, es[n], xs[n], p)
    ensures ms[n + 1].saved[p].support == ms[n].saved[p].support
  {
    MoveIn(memory, ms, es, xs, n);
    FeeStep(ms[n], es[n], xs[n], ms[n + 1], p);
  }

  /** The same time is charged again by every call that does not give up the processor. */
  ghost predicate NoFees(ms: seq<Machine>, es: seq<Event>, xs: seq<Input>, p: Pid, a: nat, b: nat)
    requires a <= b <= |es| == |xs| < |ms|
  {
    forall n {:trigger ms[n]} :: a <= n < b ==> Fee(ms[n].s, es[n], xs[n], p) == 0
  }

  lemma {:induction false} NothingChargedIff(ms: seq<Machine>, es: seq<Event>, xs: seq<Input>, p: Pid, a: nat, b: nat)
    requires a <= b <= |es| == |xs| < |ms|
    requires forall n {:trigger xs[n]} :: a <= n < b ==> xs[n].timer <= TIME_SLICE
    ensures ChargedFor(ms, es, xs, p, a, b) >= 0
    ensures ChargedFor(ms, es, xs, p, a, b) == 0 <==> NoFees(ms, es, xs, p, a, b)
    decreases b
  {
    if a < b {
      NothingChargedIff(ms, es, xs, p, a, b - 1);
      assert NoFees(ms, es, xs, p, a, b) ==> Fee(ms[b - 1].s, es[b - 1], xs[b - 1], p) == 0;
    }
  }

  /** The timer counts down from the dispatch at `a` to the call at `b` that ends the stint. That
      time, and no more, is charged if and only if no earlier call of the stint was charged
      anything. When the slice ends instead, the timer is loaded again before it is read. */
  lemma StintIsExactIff(memory: map<int, int>, ms: seq<Machine>, es: seq<Event>, xs: seq<Input>,
                        p: Pid, a: nat, b: nat)
    requires MachineRun(memory, ms, es, xs) && a <= b < |es| && Charges(es[b])
    requires forall n {:trigger ms[n]} :: a <= n <= b ==> ms[n].s.current == Some(p) && p !in ms[n].s.free
    requires p !in ms[b + 1].s.free
    requires forall n {:trigger xs[n]} :: a <= n <= b ==> xs[n].timer <= TIME_SLICE
    ensures ms[b + 1].saved[p].time - ms[a].saved[p].time >= TIME_SLICE - xs[b].timer
    ensures ms[b + 1].saved[p].time - ms[a].saved[p].time == TIME_SLICE - xs[b].timer <==> NoFees(ms, es, xs, p, a, b)
  {
    AccountIsSum(memory, ms, es, xs, p, a, b + 1);
    NothingChargedIff(ms, es, xs, p, a, b);
  }
}
