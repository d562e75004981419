/** The nucleus between two exceptions, and what each exception makes of it
    (phase2/exceptions.c, phase2/interrupts.c, phase2/scheduler.c).

    Queues are sequences of processes; `Kernels` proves that the handlers on the linked
    structures compute these functions. */
module NucleusState {
  import opened Sequences
  import opened SemaphoreLists

  type Positive = n: int | 0 < n witness 1
  const MAXPROC: Positive

  /** A process is an index of the static table of process control blocks. */
  type Pid = p: int | 0 <= p < MAXPROC witness 0

  datatype Proc = Proc(parent: Option<Pid>, kids: seq<Pid>, semAdd: int)
  type Table = t: seq<Proc> | |t| == MAXPROC ghost witness seq(MAXPROC, i => Proc(None, [], NULL_ADDR))

  /** `device_sem` is an array of 49 words, the last one for the pseudo-clock. */
  type DeviceBase = a: int | 0 < a < NULL_ADDR - 4 * 49 witness 4
  const DEVICE_BASE: DeviceBase
  const DEVICE_LAST := DEVICE_BASE + 4 * 48

  predicate IsDevice(a: int) { DEVICE_BASE <= a <= DEVICE_LAST }

  function DeviceSem(i: nat): int { DEVICE_BASE + 4 * i }

  const CLOCK := DeviceSem(48)

  datatype Nucleus = Nucleus(
    free: seq<Pid>,
    ready: seq<Pid>,
    current: Option<Pid>,
    procs: Table,
    blocked: SemList<Pid>,
    sem: map<int, int>,
    processCount: int,
    softBlock: int)

  // ---- scheduler

  datatype Verdict = Dispatch | Halt | Wait | Panic

  /** How the machine goes on in state `t`. */
  function VerdictIn(t: Nucleus): Verdict {
    if t.current.Some? then Dispatch
    else if t.processCount == 0 then Halt
    else if t.softBlock > 0 then Wait
    else Panic
  }

  function Schedule(s: Nucleus): Nucleus {
    if s.ready == [] then s.(current := None)
    else s.(current := Some(s.ready[0]), ready := s.ready[1..])
  }

  // ---- system calls

  function CreateProcess(s: Nucleus): Nucleus
    requires s.current.Some?
  {
    if s.free == [] then s else Adopt(s, s.current.value, s.free[0])
  }

  /** The new process `n` becomes ready and the last child of `c`. */
  function Adopt(s: Nucleus, c: Pid, n: Pid): Nucleus
    requires s.free != []
  {
    var table := s.procs[n := Proc(Some(c), [], NULL_ADDR)];
    s.(free := s.free[1..],
       ready := s.ready + [n],
       procs := table[c := table[c].(kids := table[c].kids + [n])],
       processCount := s.processCount + 1)
  }

  function Add(s: Nucleus, a: int, delta: int): Nucleus
    requires a in s.sem
  {
    s.(sem := s.sem[a := s.sem[a] + delta])
  }

  /** insertBlocked on the current process; its failure result is ignored by every caller. */
  function Block(s: Nucleus, a: int): Nucleus
    requires s.current.Some?
  {
    BlockOn(s, s.current.value, a)
  }

  /** insertBlocked; nothing happens when it fails. */
  function BlockOn(s: Nucleus, p: Pid, a: int): Nucleus {
    if CanBlock(s.blocked, a) then Asleep(s, p, a, InsertBlocked(s.blocked, a, p)) else s
  }

  function Asleep(s: Nucleus, p: Pid, a: int, list: SemList<Pid>): Nucleus {
    s.(blocked := list, procs := s.procs[p := s.procs[p].(semAdd := a)])
  }

  /** removeBlocked, and the process it yields joins the ready queue. */
  function Release(s: Nucleus, a: int): Nucleus {
    if QueueOf(s.blocked, a) == [] then s
    else Awake(s, QueueOf(s.blocked, a)[0], RemoveBlocked(s.blocked, a))
  }

  function Awake(s: Nucleus, p: Pid, list: SemList<Pid>): Nucleus {
    s.(blocked := list, ready := s.ready + [p], procs := s.procs[p := s.procs[p].(semAdd := NULL_ADDR)])
  }

  function Passeren(s: Nucleus, a: int): Nucleus
    requires s.current.Some? && a in s.sem
  {
    var t := Add(s, a, -1);
    if t.sem[a] < 0 then Schedule(Block(t, a)) else t
  }

  function Verhogen(s: Nucleus, a: int): Nucleus
    requires a in s.sem
  {
    var t := Add(s, a, 1);
    if t.sem[a] <= 0 then Release(t, a) else t
  }

  /** SYS5 and SYS7: the caller gives up the processor whether or not it was blocked. */
  function WaitOn(s: Nucleus, a: int): Nucleus
    requires s.current.Some? && a in s.sem
  {
    var t := Add(s, a, -1);
    var u := if t.sem[a] < 0 then Block(t, a) else t;
    Schedule(u.(softBlock := u.softBlock + 1))
  }

  // ---- interrupts

  function Resume(s: Nucleus): Nucleus {
    if s.current == None then Schedule(s) else s
  }

  function DeviceInterrupt(s: Nucleus, a: int): Nucleus
    requires a in s.sem
  {
    var t := Verhogen(s, a);
    var released := s.sem[a] + 1 <= 0 && QueueOf(s.blocked, a) != [];
    Resume(if released then Unwait(t) else t)
  }

  function LocalTimer(s: Nucleus): Nucleus
    requires s.current.Some?
  {
    Schedule(s.(ready := s.ready + [s.current.value]))
  }

  /** Releases waiters of `a` until its queue is empty. */
  function Drain(s: Nucleus, a: int): Nucleus
    requires Ascending(s.blocked.descs)
    decreases |QueueOf(s.blocked, a)|
  {
    if QueueOf(s.blocked, a) == [] then s
    else
      RemoveIsTail(s.blocked, a, a);
      Drain(Unwait(Release(s, a)), a)
  }

  function Unwait(s: Nucleus): Nucleus { s.(softBlock := s.softBlock - 1) }

  function ClockTick(s: Nucleus): Nucleus
    requires Ascending(s.blocked.descs)
  {
    var t := Drain(s, CLOCK);
    Resume(t.(sem := t.sem[CLOCK := 0]))
  }

  // ---- termination

  /** `gone` is `top` and all its descendants: it is closed under children, and every
      other member has its parent inside. */
  ghost predicate IsSubtree(s: Nucleus, top: Pid, gone: set<Pid>) {
    && top in gone
    && ClosedDown(s, gone)
    && (forall x :: x in gone && x != top ==> HasParentIn(s, x, gone))
    && (forall x :: x in gone ==> x !in s.free)
  }

  ghost predicate ClosedDown(s: Nucleus, gone: set<Pid>) {
    forall x: Pid, c: Pid :: x in gone && c in s.procs[x].kids ==> c in gone
  }

  ghost predicate HasParentIn(s: Nucleus, x: Pid, gone: set<Pid>) {
    s.procs[x].parent.Some? && s.procs[x].parent.value in gone
  }

  /** removeChild: the first child of `p` leaves its parent. */
  function Detach(s: Nucleus, p: Pid): Nucleus { s.(procs := Detached(s.procs, p)) }

  function Detached(procs: Table, p: Pid): Table {
    var kids := procs[p].kids;
    if kids == [] then procs
    else
      var table := procs[p := procs[p].(kids := kids[1..])];
      table[kids[0] := table[kids[0]].(parent := None)]
  }

  /** outChild: `p` leaves its parent, if it has one. */
  function Orphan(s: Nucleus, p: Pid): Nucleus { s.(procs := Orphaned(s.procs, p)) }

  function Orphaned(procs: Table, p: Pid): Table {
    match procs[p].parent
    case None => procs
    case Some(q) =>
      var table := procs[q := procs[q].(kids := Without(procs[q].kids, {p}))];
      table[p := table[p].(parent := None)]
  }

  /** `p` leaves the semaphore its pcb names, which gets its debt back. */
  function Unqueue(s: Nucleus, p: Pid): Nucleus {
    var a := s.procs[p].semAdd;
    var waited := p in QueueOf(s.blocked, a);
    s.(blocked := OutBlocked(s.blocked, a, p),
       sem := if waited && !IsDevice(a) && a in s.sem && s.sem[a] < 0 then s.sem[a := s.sem[a] + 1] else s.sem,
       softBlock := if waited && IsDevice(a) then s.softBlock - 1 else s.softBlock)
  }

  /** The end of a process without children: it leaves every queue. */
  function ReapOne(s: Nucleus, p: Pid): Nucleus {
    var t := Unqueue(Orphan(s, p), p);
    t.(ready := Without<Pid>(t.ready, {p}), free := [p] + t.free, processCount := t.processCount - 1)
  }

  /** What killing `killed` waiters leaves of a semaphore: each raises it while it is negative. */
  function Raised(v: int, killed: nat): int {
    if v >= 0 then v else if v + killed < 0 then v + killed else 0
  }

  /** `t` is `s` after the processes `gone`, and no others, died. */
  ghost predicate Reaped(s: Nucleus, gone: set<Pid>, t: Nucleus) {
    ReapedPlaces(s, gone, t) && ReapedTable(s, gone, t) && ReapedSemaphores(s, gone, t)
  }

  /** The dead are on the free list and nowhere else; the others keep their order everywhere. */
  ghost predicate ReapedPlaces(s: Nucleus, gone: set<Pid>, t: Nucleus) {
    && (forall x :: x in gone ==> x !in s.free)
    && multiset(t.free) == multiset(s.free) + multiset(gone)
    && |s.free| <= |t.free| && t.free[|t.free| - |s.free|..] == s.free
    && t.ready == Without(s.ready, gone)
    && t.current == s.current
    && t.blocked == WithoutAll(s.blocked, gone)
    && t.processCount == s.processCount - |gone|
  }

  ghost predicate ReapedTable(s: Nucleus, gone: set<Pid>, t: Nucleus) {
    forall x: Pid :: x !in gone && x !in s.free ==> Survives(s, gone, t, x)
  }

  /** Semaphores of the processes get back the debt of their dead waiters, device semaphores
      do not, and the soft-block count falls by the dead waiters of the devices. */
  ghost predicate ReapedSemaphores(s: Nucleus, gone: set<Pid>, t: Nucleus) {
    && t.sem.Keys == s.sem.Keys
    && (forall a :: a in s.sem ==> t.sem[a] == AfterDeaths(s, gone, a))
    && s.softBlock - t.softBlock == DeviceWaiters(s) - DeviceWaiters(t)
  }

  function AfterDeaths(s: Nucleus, gone: set<Pid>, a: int): int
    requires a in s.sem
  {
    if IsDevice(a) then s.sem[a]
    else Raised(s.sem[a], |QueueOf(s.blocked, a)| - |Without(QueueOf(s.blocked, a), gone)|)
  }

  ghost predicate Survives(s: Nucleus, gone: set<Pid>, t: Nucleus, x: Pid) {
    t.procs[x] == s.procs[x].(kids := Without(s.procs[x].kids, gone))
  }

  ghost function DeviceWaiters(s: Nucleus): nat {
    Crowd(s.blocked.descs, DEVICE_BASE, DEVICE_LAST)
  }

  // ---- invariants

  ghost function Live(s: Nucleus): set<Pid> {
    set p: int | 0 <= p < MAXPROC && p !in s.free
  }

  /** In how many places a process stands. */
  ghost function Spots(s: Nucleus, p: Pid): nat {
    multiset(s.free)[p] + multiset(s.ready)[p] + Waiting(s.blocked.descs)[p]
    + (if s.current == Some(p) && p !in s.free then 1 else 0)
  }

  ghost predicate Placed(s: Nucleus) {
    forall p: Pid :: Spots(s, p) == 1
  }

  /** A live process names a semaphore exactly when it waits, and then the one it waits on. */
  ghost predicate Linked(s: Nucleus) {
    forall p: Pid :: p !in s.free ==>
      if Waiting(s.blocked.descs)[p] == 0 then s.procs[p].semAdd == NULL_ADDR
      else p in QueueOf(s.blocked, s.procs[p].semAdd)
  }

  ghost predicate Listed(s: Nucleus) {
    && Ascending(s.blocked.descs)
    && |s.blocked.descs| + s.blocked.spare == MAXPROC
    && (forall a :: Active(s.blocked, a) ==> a in s.sem)
    && (forall a :: a in s.sem ==> 0 < a < NULL_ADDR)
    && (forall i: nat :: i <= 48 ==> DeviceSem(i) in s.sem)
  }

  ghost predicate Structured(s: Nucleus) {
    Placed(s) && Linked(s) && Listed(s) && s.processCount == |Live(s)|
  }

  /** Parents and child lists agree, and every parent ranks below its children. */
  ghost predicate Family(s: Nucleus, rank: map<Pid, nat>) {
    && (forall p: Pid :: p in rank)
    && (forall p: Pid :: p !in s.free ==> Kin(s, rank, p))
  }

  ghost predicate Kin(s: Nucleus, rank: map<Pid, nat>, p: Pid)
    requires forall x: Pid :: x in rank
  {
    && Distinct(s.procs[p].kids)
    && (forall c :: c in s.procs[p].kids ==> c !in s.free && s.procs[c].parent == Some(p))
    && (s.procs[p].parent.Some? ==>
          var q := s.procs[p].parent.value;
          q !in s.free && p in s.procs[q].kids && rank[q] < rank[p])
  }

  ghost predicate Forest(s: Nucleus) {
    exists rank: map<Pid, nat> :: Family(s, rank)
  }

  /** On every semaphore of the processes, the waiters are exactly the debt. */
  ghost predicate Balanced(s: Nucleus) {
    forall a :: a in s.sem && !IsDevice(a) ==>
      |QueueOf(s.blocked, a)| == if s.sem[a] < 0 then -s.sem[a] else 0
  }

  ghost predicate SoftBlocked(s: Nucleus) {
    && s.softBlock == DeviceWaiters(s)
    && (forall a :: a in s.sem && IsDevice(a) ==> s.sem[a] <= 0 && |QueueOf(s.blocked, a)| <= -s.sem[a])
  }

  ghost predicate Inv(s: Nucleus) {
    && Structured(s)
    && Forest(s)
    && Balanced(s)
    && SoftBlocked(s)
    && (s.current.Some? ==> s.current.value !in s.free)
    && (s.current.None? ==> s.ready == [])
  }

  // ---- the start

  /** Memory with the 49 device semaphores in it and every other semaphore at a start value. */
  ghost predicate Bootable(memory: map<int, int>) {
    && (forall i: nat :: i <= 48 ==> DeviceSem(i) in memory)
    && (forall a :: a in memory ==> 0 < a < NULL_ADDR)
    && (forall a :: a in memory && IsDevice(a) ==> exists i: nat :: i <= 48 && a == DeviceSem(i))
    && (forall a :: a in memory && !IsDevice(a) ==> memory[a] >= 0)
  }

  ghost function Booted(memory: map<int, int>): Nucleus {
    Nucleus(seq(MAXPROC - 1, i requires 0 <= i < MAXPROC - 1 => i + 1), [], Some(0),
            seq(MAXPROC, i => Proc(None, [], NULL_ADDR)), SemList([], MAXPROC),
            map a | a in memory :: if IsDevice(a) then 0 else memory[a], 1, 0)
  }
}
