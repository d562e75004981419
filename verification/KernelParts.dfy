/** The handlers taken apart: what each operation of phase 1 makes of the nucleus state, that
    the handlers of `NucleusState` are made of these, and what they do to the pcbs. */
module KernelParts {
  import opened Sequences
  import opened SemaphoreLists
  import opened NucleusState
  import opened Termination
  import opened ProcessQueues
  import opened ActiveSemaphores
  import opened Pointers
  import opened Contexts

  lemma SameStands(s: Nucleus, t: Nucleus)
    requires t.free == s.free && t.ready == s.ready && t.blocked == s.blocked
    ensures Separate(s) ==> Separate(t)
  {
    if Separate(s) {
      forall p: Pid ensures Stands(t, p) <= 1 { assert Stands(s, p) <= 1; }
    }
  }

  function FirstChild(s: Nucleus, p: Pid): Option<Pid> {
    if s.procs[p].kids == [] then None else Some(s.procs[p].kids[0])
  }

  lemma DetachedAt(procs: Table, p: Pid, x: Pid)
    ensures var kids := procs[p].kids;
            && Detached(procs, p)[x].kids == (if x == p && kids != [] then kids[1..] else procs[x].kids)
            && Detached(procs, p)[x].parent == (if kids != [] && x == kids[0] then None else procs[x].parent)
            && Detached(procs, p)[x].semAdd == procs[x].semAdd
  {
  }

  /** insertChild on the table of processes. */
  function Fostered(procs: Table, c: Pid, n: Pid): Table {
    var table := procs[n := procs[n].(parent := Some(c))];
    table[c := table[c].(kids := table[c].kids + [n])]
  }

  ghost predicate AtHome(free: seq<Pid>, procs: Table, p: Pid) {
    procs[p].parent.Some? ==> procs[p].parent.value !in free && p in procs[procs[p].parent.value].kids
  }

  /** removeBlocked: the first waiter of `a` has left it, and is not yet ready. */
  function Unblocked(s: Nucleus, a: int): Nucleus {
    match HeadBlocked(s.blocked, a)
    case None => s
    case Some(w) =>
      s.(blocked := RemoveBlocked(s.blocked, a), procs := s.procs[w := s.procs[w].(semAdd := NULL_ADDR)])
  }

  lemma UnblockedStands(s: Nucleus, a: int)
    requires Separate(s)
    ensures Separate(Unblocked(s, a)) && Unblocked(s, a).blocked == RemoveBlocked(s.blocked, a)
    ensures HeadBlocked(s.blocked, a).Some? ==> Stands(Unblocked(s, a), HeadBlocked(s.blocked, a).value) == 0
  {
    if QueueOf(s.blocked, a) != [] {
      BlockedLess(s, a);
      SameStands(s.(blocked := RemoveBlocked(s.blocked, a)), Unblocked(s, a));
    }
  }

  /** outBlocked: `p` is off the semaphore its pcb names. */
  function Unlisted(s: Nucleus, p: Pid): Nucleus {
    s.(blocked := OutBlocked(s.blocked, s.procs[p].semAdd, p))
  }

  /** `t` is `s` but for the semaphore list and the semaphore that `p` names. */
  ghost predicate Renamed(s: Nucleus, t: Nucleus, p: Pid) {
    && t == s.(blocked := t.blocked, procs := t.procs)
    && (forall x: Pid {:trigger t.procs[x]} ::
          t.procs[x] == if x == p then s.procs[x].(semAdd := t.procs[x].semAdd) else s.procs[x])
  }

  lemma BlockOnRenames(s: Nucleus, p: Pid, a: int)
    ensures Renamed(s, BlockOn(s, p, a), p) && BlockOn(s, p, a).blocked == InsertBlocked(s.blocked, a, p)
    ensures BlockOn(s, p, a).procs[p].semAdd == if CanBlock(s.blocked, a) then a else s.procs[p].semAdd
  {
  }

  /** The process that removeBlocked takes, or any other. */
  function FirstOr(s: Nucleus, a: int, p: Pid): Pid {
    match HeadBlocked(s.blocked, a)
    case None => p
    case Some(w) => w
  }

  lemma UnblockedRenames(s: Nucleus, a: int, p: Pid)
    ensures Renamed(s, Unblocked(s, a), FirstOr(s, a, p)) && Unblocked(s, a).blocked == RemoveBlocked(s.blocked, a)
    ensures Unblocked(s, a).procs[FirstOr(s, a, p)].semAdd ==
            if HeadBlocked(s.blocked, a).Some? then NULL_ADDR else s.procs[p].semAdd
  {
  }

  // ---- and of the pcbs

  lemma SameNames(t: seq<Pcb>, free: seq<Pid>, procs: Table, procs': Table)
    requires |t| == MAXPROC && Names(t, free, procs)
    requires forall p: Pid :: procs'[p].semAdd == procs[p].semAdd
    ensures Names(t, free, procs')
  {
    forall p: Pid | p !in free ensures IsNamed(t, p, procs'[p]) { assert IsNamed(t, p, procs[p]); }
  }

  lemma RenamedTree(t: seq<Pcb>, s: Nucleus, s': Nucleus, p: Pid)
    requires |t| == MAXPROC && IsTree(t, s.free, s.procs) && Renamed(s, s', p)
    ensures IsTree(t, s'.free, s'.procs)
  {
    SameTree(t, s.free, s.procs, s'.procs);
  }

  lemma RenamedNames(t: seq<Pcb>, s: Nucleus, s': Nucleus, p: Pid)
    requires |t| == MAXPROC && OtherNames(t, s.free, s.procs, p) && Renamed(s, s', p)
    requires p !in s.free ==> t[p].semAdd == s'.procs[p].semAdd
    ensures Names(t, s'.free, s'.procs)
  {
    NamesBut(t, s.free, s.procs, p, s'.procs);
  }

  lemma HeadAt(t: seq<Pcb>, s: Nucleus, a: int, p: Pid)
    requires |t| == MAXPROC
    ensures Head(QueueOf(AtAll(t, s.blocked), a)) <= {t[FirstOr(s, a, p)]}
    ensures QueueOf(AtAll(t, s.blocked), a) == [] <==> HeadBlocked(s.blocked, a).None?
    ensures HeadBlocked(s.blocked, a).Some? ==>
              QueueOf(AtAll(t, s.blocked), a)[0] == t[FirstOr(s, a, p)] == Ref(t, HeadBlocked(s.blocked, a))
  {
    AtQueueOf(t, s.blocked, a);
  }

  /** A blank pcb joins the tree as a process without kin. */
  lemma MoreTree(t: seq<Pcb>, free: seq<Pid>, procs: Table)
    requires IsTable(t) && free != [] && free[0] !in free[1..]
    requires IsTree(t, free, procs) && Names(t, free, procs) && t[free[0]].Blank()
    ensures var procs' := procs[free[0] := Proc(None, [], NULL_ADDR)];
            IsTree(t, free[1..], procs') && Names(t, free[1..], procs')
  {
    var procs' := procs[free[0] := Proc(None, [], NULL_ADDR)];
    assert free == [free[0]] + free[1..];
    forall p: Pid | p !in free[1..]
      ensures IsChildOf(t, free[1..], p, procs'[p]) && IsNamed(t, p, procs'[p])
    {
      if p != free[0] { assert IsChildOf(t, free, p, procs[p]) && IsNamed(t, p, procs[p]); }
    }
  }

  lemma Scheduled(t: seq<Pcb>, s: Nucleus)
    requires IsTable(t) && Separate(s)
    ensures Separate(Schedule(s)) && Schedule(s).sem == s.sem && Schedule(s).free == s.free
    ensures Schedule(s).procs == s.procs && Schedule(s).blocked == s.blocked
    ensures At(t, Schedule(s).ready) == if s.ready == [] then [] else At(t, s.ready)[1..]
    ensures Ref(t, Schedule(s).current) == if s.ready == [] then null else t[s.ready[0]]
  {
    if s.ready != [] {
      AtTail(t, s.ready);
      ReadyLess(s);
      forall p: Pid ensures Stands(Schedule(s), p) <= 1 { assert Stands(s.(ready := s.ready[1..]), p) <= 1; }
    } else {
      forall p: Pid ensures Stands(Schedule(s), p) <= 1 { assert Stands(s, p) <= 1; }
    }
  }

  // ---- the handlers, step by step

  lemma {:induction false} DrainKeepsCurrent(s: Nucleus)
    requires Ascending(s.blocked.descs)
    ensures Drain(s, CLOCK).current == s.current
    decreases |QueueOf(s.blocked, CLOCK)|
  {
    if QueueOf(s.blocked, CLOCK) != [] {
      RemoveIsTail(s.blocked, CLOCK, CLOCK);
      DrainKeepsCurrent(Unwait(Release(s, CLOCK)));
    }
  }

  /** The running process is alive and in no queue. */
  ghost predicate Running(s: Nucleus) {
    s.current.Some? && s.current.value !in s.free && Stands(s, s.current.value) == 0
  }

  /** A process becomes ready and the last child of the running one. */
  function TakenIn(s: Nucleus, n: Pid): Nucleus
    requires s.current.Some?
  {
    s.(ready := s.ready + [n], procs := Fostered(s.procs, s.current.value, n), processCount := s.processCount + 1)
  }

  lemma AdoptedInSteps(s: Nucleus)
    requires s.current.Some? && s.free != []
    ensures TakenIn(Allocated(s), s.free[0]) == CreateProcess(s)
  {
  }

  function Debited(s: Nucleus, a: int): Nucleus
    requires s.current.Some? && a in s.sem
  {
    var t := Add(s, a, -1);
    if t.sem[a] < 0 then BlockOn(t, t.current.value, a) else t
  }

  /** The first waiter of `a` has left it, with the soft-block count. */
  function TakenOff(s: Nucleus, a: int): Nucleus {
    if HeadBlocked(s.blocked, a).None? then s else Unwait(Unblocked(s, a))
  }

  /** The states from which draining the clock leads to `goal`. */
  ghost function Draining(goal: Nucleus): iset<Nucleus> {
    iset t: Nucleus | Ascending(t.blocked.descs) && Separate(t) && Drain(t, CLOCK) == goal
  }

  lemma DrainGoesOn(t: Nucleus)
    requires Ascending(t.blocked.descs) && QueueOf(t.blocked, CLOCK) != []
    ensures var u := TakenOff(t, CLOCK).(ready := t.ready + [QueueOf(t.blocked, CLOCK)[0]]);
            && Ascending(u.blocked.descs) && Drain(u, CLOCK) == Drain(t, CLOCK)
            && |QueueOf(u.blocked, CLOCK)| < |QueueOf(t.blocked, CLOCK)|
  {
    RemoveIsTail(t.blocked, CLOCK, CLOCK);
    assert TakenOff(t, CLOCK).(ready := t.ready + [QueueOf(t.blocked, CLOCK)[0]]) == Unwait(Release(t, CLOCK));
  }

  lemma NamesASemaphore(s: Nucleus, p: Pid)
    requires Structured(s) && p !in s.free
    ensures s.procs[p].semAdd == NULL_ADDR || s.procs[p].semAdd in s.sem
  {
    if Waiting(s.blocked.descs)[p] > 0 {
      assert p in QueueOf(s.blocked, s.procs[p].semAdd);
    }
  }

  lemma OrphanHasNoParent(s: Nucleus, p: Pid)
    ensures Orphan(s, p).procs[p].parent == None
  {
  }

  lemma OutStandsNowhere(s: Nucleus, p: Pid)
    requires Structured(s) && p !in s.free
    ensures multiset(s.free)[p] + multiset(Without<Pid>(s.ready, {p}))[p]
          + Waiting(OutBlocked(s.blocked, s.procs[p].semAdd, p).descs)[p] == 0
  {
    OutBlockedIsWithout(s, p);
    WithoutAllCount(s.blocked, {p}, p);
    WithoutCount<Pid>(s.ready, {p}, p);
    CountOfMember(s.free, p);
  }

  /** ReapOne step by step. */
  lemma ReapedInSteps(s: Nucleus, rank: map<Pid, nat>, p: Pid)
    requires Structured(s) && Family(s, rank) && p !in s.free
    ensures AtHome(s.free, s.procs, p)
    ensures var t := Orphan(s, p);
            && Listed(t) && t.free == s.free && t.sem == s.sem
            && t.procs[p].semAdd == s.procs[p].semAdd && t.procs[p].parent == None
    ensures var t := Unqueue(Orphan(s, p), p);
            var u := t.(ready := Without(t.ready, {p}));
            && Stands(u, p) == 0 && u.procs[p].parent == None
            && u.(free := [p] + u.free, processCount := u.processCount - 1) == ReapOne(s, p)
  {
    assert Kin(s, rank, p);
    OrphanKeepsSemaphore(s, p);
    OutStandsNowhere(s, p);
    OrphanHasNoParent(s, p);
  }

  /** The states whose process tree is ranked below `top`, with `p` in it. */
  ghost function Trees(rank: map<Pid, nat>, top: nat, p: Pid): iset<Nucleus> {
    iset s | forall k: bool {:trigger Key(k)} :: Key(k) ==> IsTreeBelow(s, rank, top, p)
  }

  ghost predicate IsTreeBelow(s: Nucleus, rank: map<Pid, nat>, top: nat, p: Pid) {
    Structured(s) && Family(s, rank) && p !in s.free && forall x: Pid :: rank[x] < top
  }

  /** The states in which the subtrees `gone` of the first children of `p` are reaped. */
  ghost function Survivors(s: Nucleus, p: Pid, gone: set<Pid>): iset<Nucleus> {
    iset t | forall k: bool {:trigger Key(k)} :: Key(k) ==> Partial(s, p, gone, t)
  }

  lemma ReapingKeeps(s: Nucleus, rank: map<Pid, nat>, top: nat, p: Pid, gone: set<Pid>, t: Nucleus)
    requires s in Trees(rank, top, p) && t in Survivors(s, p, gone)
    ensures IsTreeBelow(s, rank, top, p) && IsTreeBelow(t, rank, top, p) && Partial(s, p, gone, t)
  {
    assert Key(true);
    PartialKeeps(s, rank, p, gone, t);
  }

  lemma ReapingStep(s: Nucleus, rank: map<Pid, nat>, top: nat, p: Pid, gone: set<Pid>, t: Nucleus,
                    more: set<Pid>, u: Nucleus)
    requires s in Trees(rank, top, p) && t in Survivors(s, p, gone) && t.procs[p].kids != []
    requires IsSubtree(Detach(t, p), t.procs[p].kids[0], more) && Reaped(Detach(t, p), more, u)
    ensures u in Survivors(s, p, gone + more) && |u.procs[p].kids| < |t.procs[p].kids| && p !in u.free
  {
    ReapingKeeps(s, rank, top, p, gone, t);
    PartialStep(s, rank, p, gone, t, more, u);
    PartialKeeps(s, rank, p, gone + more, u);
  }

  ghost function Highest(rank: map<Pid, nat>, keys: set<Pid>): (n: nat)
    requires keys <= rank.Keys
    ensures forall x :: x in keys ==> rank[x] < n
  {
    if keys == {} then 0
    else
      var k :| k in keys;
      var m := Highest(rank, keys - {k});
      if m <= rank[k] then rank[k] + 1 else m
  }

  ghost function RankBound(rank: map<Pid, nat>): (n: nat)
    ensures forall x :: x in rank ==> rank[x] < n
  {
    Highest(rank, rank.Keys)
  }

  // ---- the start

  /** The state of the first process: kernel mode, interrupts and local timer on. */
  function StartState(test: int, ramTop: int): Cpu {
    Cpu(0, 0, 0x08000004, test, CLEARED.reg[T9 := test][SP := ramTop])
  }

  /** The variables before the first process. */
  function Cleared(memory: map<int, int>): Nucleus {
    Nucleus(seq(MAXPROC, i requires 0 <= i < MAXPROC => i), [], None,
            seq(MAXPROC, i => Proc(None, [], NULL_ADDR)), SemList([], MAXPROC), memory, 0, 0)
  }

  lemma BootedInSteps(memory: map<int, int>)
    requires Bootable(memory)
    ensures var s := Cleared(memory).(sem := Booted(memory).sem);
            && s.free[0] == 0
            && Schedule(Allocated(s).(ready := [0], processCount := 1)) == Booted(memory)
  {
    var s := Cleared(memory);
    assert s.free[1..] == Booted(memory).free;
    assert s.procs[0 := Proc(None, [], NULL_ADDR)] == Booted(memory).procs;
  }

  /** initASL and initPcbs. */
  method InitTables(pcbs: seq<Pcb>, semds: seq<Semd>, tailAddr: int) returns (asl: ActiveSemaphoreList, pool: PcbPool)
    requires IsTable(pcbs) && |semds| == MAXPROC + 2 && Distinct(semds)
    modifies Nodes(pcbs), Descriptors(semds)
    ensures fresh(asl) && asl.Valid() && asl.table == Descriptors(semds)
    ensures asl.model == SemList([], MAXPROC) && asl.tailAddr == tailAddr
    ensures fresh(pool) && pool.Valid() && pool.free == pcbs
  {
    asl := new ActiveSemaphoreList(semds, tailAddr);
    pool := new PcbPool(pcbs);
  }
}
