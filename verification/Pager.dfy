/** The pager as the code runs it: swap pool and frames are arrays, the page tables, the
    backing store and the replacement pointer are updated in place. */
module Pagers {
  import opened Sequences
  import opened DiskGeometry
  import opened Disks
  import opened Paging
  import opened PagingProofs
  import opened Faults

  class Pager {
    const geometry: Geometry
    const pool: array<Slot>
    var nextFrame: nat
    var tables: map<int, seq<Pte>>
    const ram: array<Page>
    var disk: Blocks
    var tlb: map<(int, int), Pte>
    var alive: set<int>
    var sema: int
    ghost var waiters: seq<Request>
    ghost var inside: Option<Job>

    ghost function State(): Paging
      reads this, pool, ram
    {
      Paging(geometry, pool[..], nextFrame, tables, ram[..], disk, tlb, alive, sema, waiters, inside)
    }

    /** The pager before its first fault: any page tables, all entries unmapped. */
    constructor (g: Geometry, processes: set<int>, content: Blocks)
      requires Complete(g, content) && forall a :: a in processes ==> 0 < a && PAGES * a <= g.Capacity()
      ensures fresh(pool) && fresh(ram) && pool.Length == POOL && ram.Length == POOL
      ensures Started(State()) && alive == processes && geometry == g && disk == content
    {
      geometry, disk, alive := g, content, processes;
      pool := new Slot[POOL](i => FREE);
      ram := new Page[POOL](i => seq(BLOCK_WORDS, j => 0));
      nextFrame, tlb, sema, waiters, inside := 0, map[], 0, [], None;
      tables := map a | a in processes :: InitPageTable();
      new;
      InitSwapStruct();
    }

    /** initSwapStruct */
    method InitSwapStruct()
      modifies pool, this`sema
      ensures forall f :: 0 <= f < pool.Length ==> pool[f] == FREE
      ensures sema == 1
    {
      for i := 0 to pool.Length
        invariant forall f :: 0 <= f < i ==> pool[f] == FREE
      {
        pool[i] := FREE;
      }
      sema := 1;
    }

    /** page_replace: the first free frame, else the frame the pointer has reached. */
    method PageReplace() returns (f: nat)
      requires nextFrame < pool.Length
      modifies this`nextFrame
      ensures Replaces(pool[..], old(nextFrame), f, nextFrame)
      ensures f == Pick(pool[..], old(nextFrame)) && nextFrame == NextAfter(pool[..], old(nextFrame))
    {
      for picked := 0 to pool.Length
        invariant FirstFree(pool[..], 0) == FirstFree(pool[..], picked)
      {
        if pool[picked].asid == -1 {
          if picked == nextFrame {
            nextFrame := (nextFrame + 1) % pool.Length;
          }
          return picked;
        }
      }
      var selected := nextFrame;
      nextFrame := (nextFrame + 1) % pool.Length;
      return selected;
    }

    /** One fault from the P to the V, with nobody else in between: a run of the handler's events
        and no others. The page is in the frame that page_replace chose, what was there is on
        disk, and no process sees a difference in its memory. */
    method TlbExceptionHandler(a: int, vpn: int) returns (ghost f: nat, ghost states: seq<Paging>)
      requires PInv(State()) && inside == None && a in alive && LegalVpn(vpn) && !tables[a][Index(vpn)].valid
      modifies this, pool, ram
      ensures PInv(State()) && SameMemory(old(State()), State()) && alive == old(alive)
      ensures inside == None && sema == 1 && waiters == []
      ensures states in Runs(FaultEvents(a, vpn, !AllTaken(old(pool[..]))))
      ensures |states| > 0 && states[0] == old(State()) && states[|states| - 1] == State()
      ensures Replaces(old(pool[..]), old(nextFrame), f, nextFrame) && Served(old(State()), a, vpn, f, State())
    {
      states := RunFault(a, vpn);
      f := FaultServes(states, a, vpn, !AllTaken(states[0].pool));
      FaultKeepsMemory(states, a, vpn, !AllTaken(states[0].pool));
    }

    method RunFault(a: int, vpn: int) returns (ghost states: seq<Paging>)
      requires PInv(State()) && inside == None && a in alive && LegalVpn(vpn) && !tables[a][Index(vpn)].valid
      modifies this, pool, ram
      ensures states in Runs(FaultEvents(a, vpn, !AllTaken(old(pool[..]))))
      ensures |states| > 0 && states[0] == old(State()) && states[|states| - 1] == State()
    {
      ghost var asked := Enter(a, vpn);
      var picked, chosen := ChooseAndEvict();
      ghost var filled := FillAndLeave(a, vpn, picked);
      states := WholeFault(a, vpn, asked, chosen, filled);
    }

    method FillAndLeave(a: int, vpn: int, f: nat) returns (ghost states: seq<Paging>)
      requires PInv(State()) && inside.Some? && inside.value.req == Fault(a, vpn) && waiters == []
      requires inside.value.phase == Written(f) || (inside.value.phase == Chosen(f) && pool[f].asid == -1)
      modifies this, pool, ram
      ensures states in Runs([ReadIn, EnterTable, Publish, Release])
      ensures |states| == 5 && states[0] == old(State()) && states[4] == State()
    {
      ghost var filled := FillFrame(a, vpn, f);
      ghost var left := Leave();
      Joined(filled, [ReadIn, EnterTable, Publish], left, [Release]);
      assert [ReadIn, EnterTable, Publish] + [Release] == [ReadIn, EnterTable, Publish, Release];
      states := filled + left[1..];
    }

    /** P on the swap-pool semaphore, with nobody inside. */
    method Enter(a: int, vpn: int) returns (ghost states: seq<Paging>)
      requires PInv(State()) && inside == None && a in alive && LegalVpn(vpn) && !tables[a][Index(vpn)].valid
      modifies this`sema, this`inside
      ensures PInv(State()) && SameMemory(old(State()), State()) && waiters == [] && sema == 0
      ensures inside == Some(Job(Fault(a, vpn), Entered))
      ensures states in Runs([Ask(Fault(a, vpn))]) && states == [old(State()), State()]
    {
      ghost var s := State();
      AskKeeps(s, Fault(a, vpn));
      sema := sema - 1;
      inside := Some(Job(Fault(a, vpn), Entered));
      assert State() == Acquire(s, Fault(a, vpn));
      AskRuns(s, a, vpn, State());
      states := [s, State()];
    }

    /** page_replace, and the eviction of the page it found there. */
    method ChooseAndEvict() returns (f: nat, ghost states: seq<Paging>)
      requires PInv(State()) && Handling(State()) && inside.value.phase == Entered && waiters == []
      modifies this, pool, ram
      ensures PInv(State()) && SameMemory(old(State()), State())
      ensures inside.Some? && inside.value.req == old(inside.value.req) && waiters == []
      ensures alive == old(alive) && sema == old(sema)
      ensures inside.value.phase == Written(f) || (inside.value.phase == Chosen(f) && pool[f].asid == -1)
      ensures states in Runs(if AllTaken(old(pool[..])) then [Choose, Invalidate, WriteBack] else [Choose])
      ensures |states| > 0 && states[0] == old(State()) && states[|states| - 1] == State()
    {
      f, states := PickFrame();
      if pool[f].asid != -1 {
        ghost var evicted := EvictFrame(f);
        states := JoinedFirst(states[0], Choose, states[1], evicted, [Invalidate, WriteBack]);
        assert [Choose] + [Invalidate, WriteBack] == [Choose, Invalidate, WriteBack];
      }
    }

    /** page_replace, noted as the phase of the handler. */
    method PickFrame() returns (f: nat, ghost states: seq<Paging>)
      requires PInv(State()) && Handling(State()) && inside.value.phase == Entered && waiters == []
      modifies this`nextFrame, this`inside
      ensures PInv(State()) && SameMemory(old(State()), State())
      ensures inside == Some(Job(old(inside.value.req), Chosen(f))) && f < pool.Length
      ensures pool[f].asid != -1 <==> AllTaken(pool[..])
      ensures states in Runs([Choose]) && states == [old(State()), State()]
    {
      ghost var s := State();
      ChooseKeeps(s);
      f := PageReplace();
      inside := Some(inside.value.(phase := Chosen(f)));
      assert State() == ChooseFrame(s);
      OneStep(s, Choose, State());
      states := [s, State()];
    }

    /** V on the swap-pool semaphore, with nobody waiting. */
    method Leave() returns (ghost states: seq<Paging>)
      requires PInv(State()) && Handling(State()) && inside.value.phase == Mapped && waiters == []
      modifies this`sema, this`inside
      ensures PInv(State()) && SameMemory(old(State()), State()) && inside == None && sema == old(sema) + 1
      ensures states in Runs([Release]) && states == [old(State()), State()]
    {
      ghost var s := State();
      ReleaseKeeps(s);
      sema := sema + 1;
      inside := None;
      assert State() == HandOver(s);
      OneStep(s, Release, State());
      states := [s, State()];
    }

    /** The victim's entry is unmapped at once; its page goes to its home on disk. */
    method EvictFrame(f: nat) returns (ghost states: seq<Paging>)
      requires PInv(State()) && Handling(State()) && inside.value.phase == Chosen(f) && pool[f].asid != -1
      requires waiters == []
      modifies this, pool, ram
      ensures PInv(State()) && SameMemory(old(State()), State())
      ensures Handling(State()) && inside.value == old(inside.value).(phase := Written(f))
      ensures alive == old(alive) && waiters == [] && sema == old(sema)
      ensures states in Runs([Invalidate, WriteBack])
      ensures |states| == 3 && states[0] == old(State()) && states[2] == State()
    {
      ghost var s := State();
      InvalidateKeeps(s, f);
      var (owner, k) := pool[f].pte.value;
      tables := tables[owner := tables[owner][k := UNMAPPED]];
      tlb := map[];
      inside := Some(inside.value.(phase := Evicting(f)));
      assert State() == Unmap(s, f, owner, k);
      ghost var t := State();
      if tables[owner][k].dirty {
        WriteBackKeeps(t, f);
        disk := disk[PagerChs(geometry, PAGES * (pool[f].asid - 1) + Index(pool[f].vpn)) := ram[f]];
        inside := Some(inside.value.(phase := Written(f)));
        assert State() == SaveVictim(t, f);
      }
      EvictionRuns(s, f, owner, k, t, State());
      states := [s, t, State()];
    }

    /** The missing page is read into the frame, recorded, and mapped at once. */
    method FillFrame(a: int, vpn: int, f: nat) returns (ghost states: seq<Paging>)
      requires PInv(State()) && inside.Some? && inside.value.req == Fault(a, vpn) && waiters == []
      requires inside.value.phase == Written(f) || (inside.value.phase == Chosen(f) && pool[f].asid == -1)
      modifies this, pool, ram
      ensures PInv(State()) && SameMemory(old(State()), State())
      ensures inside == Some(Job(Fault(a, vpn), Mapped)) && waiters == [] && alive == old(alive) && sema == old(sema)
      ensures states in Runs([ReadIn, EnterTable, Publish])
      ensures |states| == 4 && states[0] == old(State()) && states[3] == State()
    {
      ghost var s := State();
      var k: nat := Index(vpn);
      ReadInKeeps(s, f);
      ram[f] := disk[PagerChs(geometry, PAGES * (a - 1) + k)];
      inside := Some(inside.value.(phase := Filled(f)));
      assert State() == FetchPage(s, f, a, k);
      ghost var t := State();
      ReadInRuns(s, f, a, vpn, t);
      ghost var more := RecordAndMap(a, vpn, f);
      assert [ReadIn] + [EnterTable, Publish] == [ReadIn, EnterTable, Publish];
      states := JoinedFirst(s, ReadIn, t, more, [EnterTable, Publish]);
    }

    /** The swap pool entry is written, then the page table entry. */
    method RecordAndMap(a: int, vpn: int, f: nat) returns (ghost states: seq<Paging>)
      requires PInv(State()) && inside == Some(Job(Fault(a, vpn), Filled(f))) && waiters == []
      modifies this`inside, this`tables, this`tlb, pool
      ensures PInv(State()) && SameMemory(old(State()), State()) && inside == Some(Job(Fault(a, vpn), Mapped))
      ensures states in Runs([EnterTable, Publish])
      ensures |states| == 3 && states[0] == old(State()) && states[2] == State()
    {
      ghost var t := State();
      EnterTableKeeps(t, f);
      pool[f] := Slot(a, vpn, Some((a, Index(vpn))));
      inside := Some(inside.value.(phase := Tabled(f)));
      assert State() == RecordOwner(t, f, a, vpn);
      ghost var u := State();
      OneStep(t, EnterTable, u);
      MapEntry(a, vpn, f);
      states := [t, u, State()];
    }

    /** With interrupts off: the page table entry becomes valid and the cache is cleared. */
    method MapEntry(a: int, vpn: int, f: nat)
      requires PInv(State()) && inside == Some(Job(Fault(a, vpn), Tabled(f))) && waiters == []
      modifies this`inside, this`tables, this`tlb
      ensures PInv(State()) && SameMemory(old(State()), State()) && inside == Some(Job(Fault(a, vpn), Mapped))
      ensures Step(old(State()), Publish, State())
    {
      var k: nat := Index(vpn);
      ghost var u := State();
      PublishKeeps(u, f);
      tables := tables[a := tables[a][k := Pte(f, true, true)]];
      tlb := map[];
      inside := Some(inside.value.(phase := Mapped));
      assert State() == MapPage(u, f, a, k);
    }

    /** TERMINATE, once it has the swap-pool semaphore and with interrupts off. */
    method Terminate(a: int)
      requires pool.Length == POOL && a in tables
      modifies this, pool
      ensures State() == Exited(old(State()), a)
      ensures forall f :: 0 <= f < POOL ==>
                pool[f] == if old(pool[f]).asid == a then Slot(-1, -1, None) else old(pool[f])
      ensures tables.Keys == old(tables).Keys && |tables[a]| == |old(tables)[a]|
      ensures forall k :: 0 <= k < |tables[a]| ==> tables[a][k] == Pte(-1, old(tables)[a][k].dirty, false)
      ensures forall b :: b in tables && b != a ==> tables[b] == old(tables)[b]
      ensures ram[..] == old(ram[..]) && disk == old(disk) && tlb == old(tlb) && nextFrame == old(nextFrame)
      ensures alive == old(alive) - {a} && sema == old(sema) + 1
      ensures if old(sema) < 0 && old(waiters) != []
              then inside == Some(Job(old(waiters)[0], Entered)) && waiters == old(waiters)[1..]
              else inside == None && waiters == old(waiters)
    {
      ghost var s := State();
      for i := 0 to pool.Length
        invariant forall f :: 0 <= f < i ==> pool[f] == if s.pool[f].asid == a then FREE else s.pool[f]
        invariant forall f :: i <= f < pool.Length ==> pool[f] == s.pool[f]
        invariant State() == s.(pool := pool[..])
      {
        if pool[i].asid == a {
          pool[i] := FREE;
        }
      }
      assert pool[..] == Vacate(s.pool, a);
      ghost var v := State();
      sema := sema + 1;
      if sema <= 0 && waiters != [] {
        inside, waiters := Some(Job(waiters[0], Entered)), waiters[1..];
      } else {
        inside := None;
      }
      assert State() == HandOver(v);
      ClearTable(a);
      alive := alive - {a};
    }

    method ClearTable(a: int)
      requires a in tables
      modifies this`tables
      ensures tables == old(tables)[a := Unmapped(old(tables)[a])]
    {
      ghost var was := tables[a];
      for i := 0 to |tables[a]|
        invariant a in tables && |tables[a]| == |was| && tables == old(tables)[a := tables[a]]
        invariant forall k :: 0 <= k < i ==> tables[a][k] == was[k].(frame := -1, valid := false)
        invariant forall k :: i <= k < |was| ==> tables[a][k] == was[k]
      {
        tables := tables[a := tables[a][i := tables[a][i].(frame := -1, valid := false)]];
      }
      assert tables[a] == Unmapped(was);
    }
  }

  // ---- the actions of the handler as events

  lemma AskRuns(s: Paging, a: int, vpn: int, t: Paging)
    requires PInv(s) && s.inside == None && a in s.alive && LegalVpn(vpn) && !s.tables[a][Index(vpn)].valid
    requires t == Acquire(s, Fault(a, vpn))
    ensures [s, t] in Runs([Ask(Fault(a, vpn))])
  {
  }

  lemma EvictionRuns(s: Paging, f: nat, a: int, k: int, t: Paging, u: Paging)
    requires PInv(s) && Handling(s) && s.inside.value.phase == Chosen(f) && s.pool[f].pte == Some((a, k))
    requires s.pool[f].asid != -1 && a in s.tables && 0 <= k < |s.tables[a]| && t == Unmap(s, f, a, k) && Sane(t)
    requires u == SaveVictim(t, f)
    ensures [s, t, u] in Runs([Invalidate, WriteBack])
  {
    assert Step(s, Invalidate, t) && Step(t, WriteBack, u);
  }

  lemma JoinedFirst(s: Paging, e: Event, t: Paging, more: seq<Paging>, further: seq<Event>) returns (all: seq<Paging>)
    requires [s, t] in Runs([e]) && more in Runs(further) && |more| == |further| + 1 && more[0] == t
    ensures all in Runs([e] + further) && |all| == |more| + 1 && all[0] == s && all[|all| - 1] == more[|more| - 1]
  {
    Joined([s, t], [e], more, further);
    all := [s, t] + more[1..];
  }

  lemma ReadInRuns(s: Paging, f: nat, a: int, vpn: int, t: Paging)
    requires PInv(s) && s.inside.Some? && s.inside.value.req == Fault(a, vpn) && Home(s, a, Index(vpn)) in s.disk
    requires s.inside.value.phase == Written(f) || (s.inside.value.phase == Chosen(f) && s.pool[f].asid == -1)
    requires f < |s.ram| && t == FetchPage(s, f, a, Index(vpn))
    ensures [s, t] in Runs([ReadIn])
  {
  }

  /** The parts of a fault's run, put together. */
  lemma WholeFault(a: int, vpn: int, asked: seq<Paging>, chosen: seq<Paging>, filled: seq<Paging>)
    returns (states: seq<Paging>)
    requires asked in Runs([Ask(Fault(a, vpn))]) && |asked| == 2
    requires chosen in Runs(if AllTaken(asked[0].pool) then [Choose, Invalidate, WriteBack] else [Choose])
    requires |chosen| > 0 && asked[1] == chosen[0]
    requires filled in Runs([ReadIn, EnterTable, Publish, Release])
    requires |filled| == 5 && chosen[|chosen| - 1] == filled[0]
    ensures states in Runs(FaultEvents(a, vpn, !AllTaken(asked[0].pool)))
    ensures |states| > 0 && states[0] == asked[0] && states[|states| - 1] == filled[4]
  {
    var choice := if AllTaken(asked[0].pool) then [Choose, Invalidate, WriteBack] else [Choose];
    var filling := [ReadIn, EnterTable, Publish, Release];
    Joined(asked, [Ask(Fault(a, vpn))], chosen, choice);
    var part := asked + chosen[1..];
    Joined(part, [Ask(Fault(a, vpn))] + choice, filled, filling);
    states := part + filled[1..];
    assert [Ask(Fault(a, vpn))] + choice + filling == FaultEvents(a, vpn, !AllTaken(asked[0].pool));
  }

  function InitPageTable(): seq<Pte> { seq(PAGES, i => UNMAPPED) }
}
