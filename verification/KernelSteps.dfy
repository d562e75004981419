/** The handlers on the heap against the steps of the nucleus: whatever happens, pointers,
    variables and saved states go from one state of the machine to a next one. */
module KernelSteps {
  import opened Sequences
  import opened NucleusState
  import opened ProcessQueues
  import opened Contexts
  import opened KernelParts
  import opened Kernels
  import opened Runs
  import opened ContextRuns

  /** The event can happen: somebody runs and names a semaphore, or an interrupt is raised. */
  predicate CanHappen(s: Nucleus, e: Event) {
    match e
    case P(a) => s.current.Some? && a in s.sem && !IsDevice(a)
    case V(a) => s.current.Some? && a in s.sem && !IsDevice(a)
    case WaitIo(i) => s.current.Some? && i < 48
    case Device(i) => i < 48
    case Tick => true
    case _ => s.current.Some?
  }

  /** Every event of `Runs` is one of these. */
  lemma StepCanHappen(s: Nucleus, e: Event, t: Nucleus)
    requires Step(s, e, t)
    ensures CanHappen(s, e)
  {
  }

  lemma InvRuns(s: Nucleus)
    requires Inv(s) && s.current.Some?
    ensures Running(s)
  {
    assert Spots(s, s.current.value) == 1;
  }

  /** What the kernel's variables and pcbs stand for. */
  ghost function View(k: Kernel, loaded: Option<Cpu>): Machine
    requires |k.table| == MAXPROC
    reads k, Nodes(k.table)`cpu, Nodes(k.table)`time, Nodes(k.table)`support
  {
    Machine(k.state, k.Saved(), loaded)
  }

  /** SYS1 and SYS4, after which the caller goes on. */
  method HandleCall(k: Kernel, e: Event, x: Input) returns (v: Verdict, loaded: Option<Cpu>)
    requires k.Valid() && CanHappen(k.state, e) && (e.Create? || e.V?) && k.state.current.value !in k.state.free
    modifies k.Repr()
    ensures k.Valid() && Moves(old(View(k, None)), e, x, View(k, loaded)) && v == VerdictIn(k.state)
  {
    var cpu;
    if e.Create? {
      var v0;
      v0, cpu := k.SysCreate(x.cpu, x.support, x.saved, x.timer);
    } else {
      var w;
      w, cpu := k.SysVerhogen(e.a, x.saved, x.timer);
    }
    v, loaded := Dispatch, Some(cpu);
  }

  /** SYS3, SYS5 and SYS7, which may block their caller. */
  method HandleWait(k: Kernel, e: Event, x: Input) returns (v: Verdict, loaded: Option<Cpu>)
    requires k.Valid() && CanHappen(k.state, e) && (e.P? || e.WaitIo? || e.WaitClock?) && Running(k.state)
    requires forall i: nat :: i <= 48 ==> DeviceSem(i) in k.words
    modifies k.Repr()
    ensures k.Valid() && Moves(old(View(k, None)), e, x, View(k, loaded)) && v == VerdictIn(k.state)
  {
    if e.P? {
      v, loaded := k.SysPasseren(e.a, x.saved, x.timer);
    } else {
      v, loaded := k.SysWait(if e.WaitIo? then e.i else 48, x.saved, x.timer);
    }
  }

  method HandleDevice(k: Kernel, i: nat, x: Input) returns (v: Verdict, loaded: Option<Cpu>)
    requires k.Valid() && i < 48 && DeviceSem(i) in k.words
    modifies k.Repr()
    ensures k.Valid() && Moves(old(View(k, None)), Device(i), x, View(k, loaded)) && v == VerdictIn(k.state)
  {
    v, loaded := k.OnDevice(i, x.status, x.saved);
  }

  method HandleTimer(k: Kernel, e: Event, x: Input) returns (v: Verdict, loaded: Option<Cpu>)
    requires k.Valid() && CanHappen(k.state, e) && (e.Timer? || e.Tick?)
    requires Listed(k.state) && (e.Timer? ==> Running(k.state))
    modifies k.Repr()
    ensures k.Valid() && Moves(old(View(k, None)), e, x, View(k, loaded)) && v == VerdictIn(k.state)
  {
    if e.Timer? {
      v, loaded := k.OnLocalTimer(x.saved, x.timer);
    } else {
      assert CLOCK == DeviceSem(48) && CLOCK in k.words;
      v, loaded := k.OnPseudoClock(x.saved);
    }
  }

  method HandleDeath(k: Kernel, x: Input) returns (v: Verdict, loaded: Option<Cpu>)
    requires k.Valid() && CanHappen(k.state, Terminate)
    requires Structured(k.state) && Forest(k.state) && k.state.current.value !in k.state.free
    modifies k.Repr()
    ensures k.Valid() && Moves(old(View(k, None)), Terminate, x, View(k, loaded)) && v == VerdictIn(k.state)
  {
    ghost var m := View(k, None);
    ghost var gone, reaped;
    gone, reaped, v, loaded := k.SysTerminate();
    DeathMoves(m, x, gone, reaped, View(k, loaded));
  }

  lemma DeathMoves(m: Machine, x: Input, gone: set<Pid>, reaped: Nucleus, n: Machine)
    requires Total(m.saved) && m.s.current.Some? && Dies(m.s, gone, reaped) && n.s == Schedule(reaped)
    requires n.saved == m.saved && n.loaded == DispatchedIn(n.s, n.saved)
    ensures Moves(m, Terminate, x, n)
  {
  }

  /** One exception, from the dispatch to the return or to the next dispatch: how the machine
      goes on, and the state of the processor that is loaded. */
  method Handle(k: Kernel, e: Event, x: Input) returns (v: Verdict, loaded: Option<Cpu>)
    requires k.Valid() && Inv(k.state) && CanHappen(k.state, e)
    modifies k.Repr()
    ensures k.Valid() && Moves(old(View(k, None)), e, x, View(k, loaded)) && v == VerdictIn(k.state)
    ensures Fits(old(k.state), e) ==> Inv(k.state)
  {
    ghost var s := k.state;
    if s.current.Some? { InvRuns(s); }
    if e.Create? || e.V? {
      v, loaded := HandleCall(k, e, x);
    } else if e.Timer? || e.Tick? {
      v, loaded := HandleTimer(k, e, x);
    } else if e.Device? {
      v, loaded := HandleDevice(k, e.i, x);
    } else if e.Terminate? {
      v, loaded := HandleDeath(k, x);
    } else {
      v, loaded := HandleWait(k, e, x);
    }
    assert Step(s, e, k.state);
    if Fits(s, e) { StepKeeps(s, e, k.state); }
  }
}
