/** The demand pager (phase3/vmSupport.c, with TERMINATE in phase3/sysSupport.c): page tables,
    swap pool, backing store and translation cache, and the steps of the fault handler, which
    loses the processor between them. Page numbers are legal and device operations succeed. */
module Paging {
  import opened Sequences
  import opened DiskGeometry
  import opened Disks

  // ---- page numbers

  const STARTVPN := 0x80000
  const STACK_VPN := 0xBFFFF

  predicate LegalVpn(v: int) { STARTVPN <= v < STARTVPN + PAGES - 1 || v == STACK_VPN }

  /** The page-table index of the fault handler. */
  function Index(v: int): int { if v == STACK_VPN then PAGES - 1 else v - STARTVPN }

  /** The page-table index of uTLB_RefillHandler. */
  function RefillIndex(v: nat): int { v % PAGES }

  /** EntryHi of entry `i` as init_Uproc_pgTable writes it, and the page number in it. */
  function EntryHi(asid: nat, i: int): int {
    (if i == PAGES - 1 then 0xBFFFF000 else 0x80000000 + i * 0x1000) + asid * 0x40
  }

  function EntryVpn(asid: nat, i: int): int { EntryHi(asid, i) / 0x1000 }

  lemma HandlersAgreeIff(v: nat)
    ensures Index(v) == RefillIndex(v) <==> STARTVPN <= v < STARTVPN + PAGES || v == STACK_VPN
  {
  }

  /** The entry a fault fills is the entry the hardware will match exactly for legal pages;
      the page after the last one of the code shares the entry of the stack. */
  lemma EntryIsForPageIff(asid: nat, v: nat)
    requires asid < 0x40
    ensures 0 <= Index(v) < PAGES && EntryVpn(asid, Index(v)) == v <==> LegalVpn(v)
    ensures Index(STARTVPN + PAGES - 1) == Index(STACK_VPN)
  {
  }

  // ---- state

  type Dim = DiskGeometry.Dimension
  const POOL: Dim        // SWAP_POOL_SIZE

  /** EntryLo: the frame (or -1), D and V. */
  datatype Pte = Pte(frame: int, dirty: bool, valid: bool)

  const UNMAPPED := Pte(-1, true, false)

  /** A swap-pool entry; `asid` is -1 when the frame is free. */
  datatype Slot = Slot(asid: int, vpn: int, pte: Option<(int, int)>)

  const FREE := Slot(-1, -1, None)

  type Page = seq<int>

  datatype Request = Fault(asid: int, vpn: int) | Exit(asid: int)

  /** How far the handler that holds `swapPoolSema4` has come, and its frame. */
  datatype Phase =
    | Entered | Chosen(f: nat) | Evicting(f: nat) | Written(f: nat) | Filled(f: nat) | Tabled(f: nat) | Mapped

  datatype Job = Job(req: Request, phase: Phase)

  datatype Paging = Paging(
    geometry: Geometry,
    pool: seq<Slot>,
    nextFrame: nat,
    tables: map<int, seq<Pte>>,
    ram: seq<Page>,
    disk: Blocks,
    tlb: map<(int, int), Pte>,
    alive: set<int>,
    sema: int,
    waiters: seq<Request>,
    inside: Option<Job>)

  /** Sector of page `k` of process `a` in the backing store. */
  function Home(s: Paging, a: int, k: int): Chs { PagerChs(s.geometry, PAGES * (a - 1) + k) }

  // ---- the replacer

  function FirstFree(pool: seq<Slot>, i: nat): (f: nat)
    requires i <= |pool|
    ensures i <= f <= |pool|
    ensures forall j :: i <= j < f ==> pool[j].asid != -1
    ensures f < |pool| ==> pool[f].asid == -1
    decreases |pool| - i
  {
    if i == |pool| || pool[i].asid == -1 then i else FirstFree(pool, i + 1)
  }

  function Pick(pool: seq<Slot>, nextFrame: nat): nat {
    var f := FirstFree(pool, 0);
    if f < |pool| then f else nextFrame
  }

  function NextAfter(pool: seq<Slot>, nextFrame: nat): nat
    requires pool != []
  {
    var f := FirstFree(pool, 0);
    if f < |pool| && f != nextFrame then nextFrame else (nextFrame + 1) % |pool|
  }

  // ---- events

  datatype Event =
    | Refill(a: int, vpn: int) | Forget(a: int, vpn: int)
    | Load(a: int, vpn: int, off: nat, word: int) | Store(a: int, vpn: int, off: nat, word: int)
    | Ask(req: Request)
    | Choose | Invalidate | WriteBack | ReadIn | EnterTable | Publish | Release | ExitNow

  predicate Busy(s: Paging, a: int) {
    (s.inside.Some? && s.inside.value.req.asid == a) || exists i :: 0 <= i < |s.waiters| && s.waiters[i].asid == a
  }

  /** The translation the hardware uses. */
  predicate Hits(s: Paging, a: int, vpn: int) {
    (a, vpn) in s.tlb && s.tlb[(a, vpn)].valid
  }

  predicate Handling(s: Paging) {
    s.inside.Some? && s.inside.value.req.Fault?
  }

  function At(s: Paging, phase: Phase): Paging
    requires s.inside.Some?
  {
    s.(inside := Some(s.inside.value.(phase := phase)))
  }

  /** P on `swapPoolSema4`: the request goes inside or waits its turn. */
  function Acquire(s: Paging, req: Request): Paging {
    if s.sema - 1 < 0 then s.(sema := s.sema - 1, waiters := s.waiters + [req])
    else s.(sema := s.sema - 1, inside := Some(Job(req, Entered)))
  }

  /** V on `swapPoolSema4`: hands over to the first that waits. */
  function HandOver(s: Paging): Paging {
    if s.sema + 1 <= 0 && s.waiters != []
    then s.(sema := s.sema + 1, inside := Some(Job(s.waiters[0], Entered)), waiters := s.waiters[1..])
    else s.(sema := s.sema + 1, inside := None)
  }

  function ChooseFrame(s: Paging): Paging
    requires s.inside.Some? && s.pool != []
  {
    At(s, Chosen(Pick(s.pool, s.nextFrame))).(nextFrame := NextAfter(s.pool, s.nextFrame))
  }

  /** With interrupts off: the victim's entry loses V, and the cache is cleared. */
  function Unmap(s: Paging, f: nat, a: int, k: int): Paging
    requires s.inside.Some? && a in s.tables && 0 <= k < |s.tables[a]|
  {
    At(s, Evicting(f)).(tables := s.tables[a := s.tables[a][k := UNMAPPED]], tlb := map[])
  }

  function SaveVictim(s: Paging, f: nat): Paging
    requires s.inside.Some? && f < |s.pool| && f < |s.ram|
  {
    At(s, Written(f)).(disk := s.disk[Home(s, s.pool[f].asid, Index(s.pool[f].vpn)) := s.ram[f]])
  }

  function FetchPage(s: Paging, f: nat, a: int, k: int): Paging
    requires s.inside.Some? && f < |s.ram| && Home(s, a, k) in s.disk
  {
    At(s, Filled(f)).(ram := s.ram[f := s.disk[Home(s, a, k)]])
  }

  function RecordOwner(s: Paging, f: nat, a: int, vpn: int): Paging
    requires s.inside.Some? && f < |s.pool|
  {
    At(s, Tabled(f)).(pool := s.pool[f := Slot(a, vpn, Some((a, Index(vpn))))])
  }

  /** With interrupts off: the new entry becomes valid, and the cache is cleared. */
  function MapPage(s: Paging, f: nat, a: int, k: int): Paging
    requires s.inside.Some? && a in s.tables && 0 <= k < |s.tables[a]|
  {
    At(s, Mapped).(tables := s.tables[a := s.tables[a][k := Pte(f, true, true)]], tlb := map[])
  }

  function Vacate(pool: seq<Slot>, a: int): (r: seq<Slot>)
    ensures |r| == |pool| && forall i :: 0 <= i < |pool| ==> r[i] == if pool[i].asid == a then FREE else pool[i]
  {
    seq(|pool|, i requires 0 <= i < |pool| => if pool[i].asid == a then FREE else pool[i])
  }

  function Unmapped(table: seq<Pte>): (r: seq<Pte>)
    ensures |r| == |table| && forall i :: 0 <= i < |table| ==> r[i] == table[i].(frame := -1, valid := false)
  {
    seq(|table|, i requires 0 <= i < |table| => table[i].(frame := -1, valid := false))
  }

  /** TERMINATE from the moment it holds the semaphore, interrupts off: the frames are freed,
      the semaphore handed on, the page table cleared. The cache is not. */
  function Exited(s: Paging, a: int): Paging
    requires a in s.tables
  {
    HandOver(s.(pool := Vacate(s.pool, a))).(tables := s.tables[a := Unmapped(s.tables[a])], alive := s.alive - {a})
  }

  // ---- the transition relation

  ghost predicate Step(s: Paging, e: Event, t: Paging)
    requires Sane(s)
  {
    match e
    case Refill(a, vpn) =>
      a in s.alive && LegalVpn(vpn) && t == s.(tlb := s.tlb[(a, vpn) := s.tables[a][RefillIndex(vpn)]])
    case Forget(a, vpn) => t == s.(tlb := s.tlb - {(a, vpn)})
    case Load(a, vpn, off, word) =>
      && a in s.alive && LegalVpn(vpn) && Hits(s, a, vpn) && 0 <= s.tlb[(a, vpn)].frame < POOL && off < BLOCK_WORDS
      && word == s.ram[s.tlb[(a, vpn)].frame][off] && t == s
    case Store(a, vpn, off, word) =>
      && a in s.alive && LegalVpn(vpn) && Hits(s, a, vpn) && 0 <= s.tlb[(a, vpn)].frame < POOL && off < BLOCK_WORDS
      && (var f := s.tlb[(a, vpn)].frame; t == s.(ram := s.ram[f := s.ram[f][off := word]]))
    case Ask(req) =>
      && req.asid in s.alive && !Busy(s, req.asid)
      && (req.Fault? ==> LegalVpn(req.vpn) && !s.tables[req.asid][Index(req.vpn)].valid)
      && t == Acquire(s, req)
    case Choose => Handling(s) && s.inside.value.phase == Entered && t == ChooseFrame(s)
    case Invalidate =>
      && Handling(s) && s.inside.value.phase.Chosen?
      && var f := s.inside.value.phase.f;
         f < POOL && s.pool[f].asid != -1 && s.pool[f].pte.Some? &&
         var (a, k) := s.pool[f].pte.value;
         a in s.tables && 0 <= k < PAGES && t == Unmap(s, f, a, k)
    case WriteBack =>
      && Handling(s) && s.inside.value.phase.Evicting?
      && var f := s.inside.value.phase.f;
         f < POOL && t == SaveVictim(s, f)
    case ReadIn =>
      && Handling(s)
      && var job := s.inside.value;
         (job.phase.Written? || (job.phase.Chosen? && job.phase.f < POOL && s.pool[job.phase.f].asid == -1)) &&
         job.phase.f < POOL && Home(s, job.req.asid, Index(job.req.vpn)) in s.disk &&
         t == FetchPage(s, job.phase.f, job.req.asid, Index(job.req.vpn))
    case EnterTable =>
      && Handling(s) && s.inside.value.phase.Filled?
      && var job := s.inside.value;
         job.phase.f < POOL && t == RecordOwner(s, job.phase.f, job.req.asid, job.req.vpn)
    case Publish =>
      && Handling(s) && s.inside.value.phase.Tabled?
      && var job := s.inside.value;
         job.req.asid in s.tables && 0 <= Index(job.req.vpn) < PAGES &&
         t == MapPage(s, job.phase.f, job.req.asid, Index(job.req.vpn))
    case Release => Handling(s) && s.inside.value.phase.Mapped? && t == HandOver(s)
    case ExitNow =>
      && s.inside.Some? && s.inside.value.req.Exit? && s.inside.value.req.asid in s.tables
      && t == Exited(s, s.inside.value.req.asid)
  }

  /** Sizes: `POOL` frames, tables of 32 entries, whole pages everywhere, and a backing-store
      sector for every page of every process. */
  ghost predicate Sane(s: Paging) {
    && |s.pool| == POOL && |s.ram| == POOL && s.nextFrame < POOL
    && s.alive <= s.tables.Keys
    && (forall a :: a in s.tables ==> 0 < a && |s.tables[a]| == PAGES && PAGES * a <= s.geometry.Capacity())
    && (forall f :: 0 <= f < POOL ==> |s.ram[f]| == BLOCK_WORDS)
    && Complete(s.geometry, s.disk)
  }
}
