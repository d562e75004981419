/** Paging is invisible: whatever the interleaving of faults, loads, stores and exits, every
    process sees a private memory that only its own stores change. */
module PagingProofs {
  import opened Sequences
  import Locks
  import opened DiskGeometry
  import opened Disks
  import opened Paging

  // ---- invariant

  ghost predicate Locked(s: Paging) {
    && s.sema == (if s.inside.Some? then 0 else 1) - |s.waiters|
    && (s.inside.None? ==> s.waiters == [])
  }

  ghost predicate Pending(s: Paging, req: Request)
    requires Sane(s)
  {
    req.asid in s.alive && (req.Fault? ==> LegalVpn(req.vpn) && !s.tables[req.asid][Index(req.vpn)].valid)
  }

  /** Every waiting fault is for a page that is still absent, and no process asks twice. */
  ghost predicate Asked(s: Paging)
    requires Sane(s)
  {
    && (forall i :: 0 <= i < |s.waiters| ==> Pending(s, s.waiters[i]))
    && (forall i, j :: 0 <= i < j < |s.waiters| ==> s.waiters[i].asid != s.waiters[j].asid)
    && (s.inside.Some? ==> s.inside.value.req.asid in s.alive)
    && (s.inside.Some? ==> forall i :: 0 <= i < |s.waiters| ==> s.waiters[i].asid != s.inside.value.req.asid)
  }

  /** The frame whose old or new owner has no entry for it at the moment. */
  predicate InLimbo(s: Paging, f: nat) {
    s.inside.Some? &&
    match s.inside.value.phase
    case Evicting(g) => g == f
    case Written(g) => g == f
    case Filled(g) => g == f
    case Tabled(g) => g == f
    case _ => false
  }

  ghost predicate OwnerAgrees(s: Paging, f: nat)
    requires Sane(s) && f < POOL
  {
    var slot := s.pool[f];
    slot.asid != -1 ==>
      && slot.asid in s.alive && LegalVpn(slot.vpn)
      && slot.pte == Some((slot.asid, Index(slot.vpn)))
      && (if InLimbo(s, f) then !s.tables[slot.asid][Index(slot.vpn)].valid
          else s.tables[slot.asid][Index(slot.vpn)] == Pte(f, true, true))
  }

  ghost predicate EntryAgrees(s: Paging, a: int, k: nat)
    requires Sane(s) && a in s.alive && k < PAGES
  {
    var e := s.tables[a][k];
    e.valid ==> 0 <= e.frame < POOL && s.pool[e.frame].asid == a && Index(s.pool[e.frame].vpn) == k
  }

  /** The swap pool and the page tables name each other. */
  ghost predicate Agree(s: Paging)
    requires Sane(s)
  {
    && (forall f: nat :: f < POOL ==> OwnerAgrees(s, f))
    && (forall a, k: nat :: a in s.alive && k < PAGES ==> EntryAgrees(s, a, k))
  }

  ghost predicate Staged(s: Paging)
    requires Sane(s) && (s.inside.Some? ==> s.inside.value.req.asid in s.alive)
  {
    s.inside.Some? ==>
      var req := s.inside.value.req;
      if req.Exit? then s.inside.value.phase == Entered
      else
        && LegalVpn(req.vpn)
        && var a, k := req.asid, Index(req.vpn);
           && (s.tables[a][k].valid <==> s.inside.value.phase.Mapped?)
           && match s.inside.value.phase
              case Entered => true
              case Chosen(f) => f < POOL
              case Evicting(f) => f < POOL && s.pool[f].asid != -1
              case Written(f) => f < POOL
              case Filled(f) => f < POOL && InDisk(s, a, k) && s.ram[f] == s.disk[Home(s, a, k)]
              case Tabled(f) => f < POOL && InDisk(s, a, k) && s.ram[f] == s.disk[Home(s, a, k)]
                                && s.pool[f].asid == a && s.pool[f].vpn == req.vpn
              case Mapped => true
  }

  predicate InDisk(s: Paging, a: int, k: int) { Home(s, a, k) in s.disk }

  /** What is cached for a live process is what its page table says. */
  ghost predicate Coherent(s: Paging)
    requires Sane(s)
  {
    forall a, v :: (a, v) in s.tlb && a in s.alive ==> LegalVpn(v) && s.tlb[(a, v)] == s.tables[a][Index(v)]
  }

  ghost predicate PInv(s: Paging) {
    Sane(s) && Locked(s) && Asked(s) && Agree(s) && Staged(s) && Coherent(s)
  }

  // ---- the memory a process sees

  predicate InFlight(s: Paging, a: int, k: int) {
    && Handling(s) && s.inside.value.phase.Evicting? && s.inside.value.phase.f < |s.pool|
    && s.pool[s.inside.value.phase.f].asid == a && Index(s.pool[s.inside.value.phase.f].vpn) == k
  }

  /** Page `k` of process `a`: in its frame while it is mapped or on its way out, else on disk. */
  function Logical(s: Paging, a: int, k: int): Page {
    if a in s.tables && 0 <= k < |s.tables[a]| && s.tables[a][k].valid && 0 <= s.tables[a][k].frame < |s.ram|
    then s.ram[s.tables[a][k].frame]
    else if InFlight(s, a, k) && s.inside.value.phase.f < |s.ram| then s.ram[s.inside.value.phase.f]
    else if InDisk(s, a, k) then s.disk[Home(s, a, k)]
    else []
  }

  ghost predicate SameMemory(s: Paging, t: Paging) {
    t.alive <= s.alive && forall a, k: nat :: a in t.alive && k < PAGES ==> Logical(t, a, k) == Logical(s, a, k)
  }

  lemma HomeInRange(s: Paging, a: int, k: nat)
    requires Sane(s) && a in s.tables && k < PAGES
    ensures 0 <= PAGES * (a - 1) + k < s.geometry.Capacity() && InRange(s.geometry, Home(s, a, k)) && InDisk(s, a, k)
  {
    PagerDecompose(s.geometry, PAGES * (a - 1) + k);
  }

  lemma HomesDiffer(s: Paging, a: int, k: nat, b: int, l: nat)
    requires Sane(s) && a in s.tables && b in s.tables && k < PAGES && l < PAGES && (a, k) != (b, l)
    ensures Home(s, a, k) != Home(s, b, l)
  {
    HomeInRange(s, a, k);
    HomeInRange(s, b, l);
    Injective(s.geometry, PAGES * (a - 1) + k, PAGES * (b - 1) + l);
  }

  lemma LogicalIsPage(s: Paging, a: int, k: nat)
    requires Sane(s) && a in s.tables && k < PAGES
    ensures |Logical(s, a, k)| == BLOCK_WORDS
  {
    HomeInRange(s, a, k);
  }

  /** No page is resident twice: outside a fault, a page is mapped exactly when a frame is
      recorded for it, and then that frame is the only one. */
  lemma ResidentOnce(s: Paging, a: int, v: int, f: nat, g: nat)
    requires PInv(s) && a in s.alive && LegalVpn(v) && f < POOL && g < POOL
    requires s.pool[f].asid == a && s.pool[f].vpn == v && s.pool[g].asid == a && s.pool[g].vpn == v
    ensures f == g
  {
    assert OwnerAgrees(s, f) && OwnerAgrees(s, g);
  }

  lemma MappedIffRecorded(s: Paging, a: int, v: int)
    requires PInv(s) && s.inside.None? && a in s.alive && LegalVpn(v)
    ensures s.tables[a][Index(v)].valid <==> exists f: nat :: f < POOL && s.pool[f].asid == a && s.pool[f].vpn == v
    ensures forall f: nat :: f < POOL && s.pool[f].asid == a && s.pool[f].vpn == v ==>
              s.tables[a][Index(v)] == Pte(f, true, true) && s.pool[f].pte == Some((a, Index(v)))
  {
    assert EntryAgrees(s, a, Index(v));
    if s.tables[a][Index(v)].valid {
      var f := s.tables[a][Index(v)].frame;
      assert OwnerAgrees(s, f);
    }
    forall f: nat | f < POOL && s.pool[f].asid == a && s.pool[f].vpn == v
      ensures s.tables[a][Index(v)] == Pte(f, true, true) && s.pool[f].pte == Some((a, Index(v)))
    {
      assert OwnerAgrees(s, f);
    }
  }

  // ---- the semaphore

  /** `swapPoolSema4` with those that wait on it. */
  function LockOf(s: Paging): Locks.Lock<Request> { Locks.Lock(s.sema, s.waiters) }

  /** Acquiring it is P: the request goes inside if it passes, and waits otherwise. */
  lemma AcquireIsP(s: Paging, req: Request)
    ensures var t, r := Acquire(s, req), Locks.P(LockOf(s), req);
            LockOf(t) == r.0 && t == s.(sema := t.sema, waiters := t.waiters, inside := t.inside)
            && t.inside == if r.1 then Some(Job(req, Entered)) else s.inside
  {
  }

  /** Releasing it is V: the request that passes is inside, or nobody is. */
  lemma HandOverIsV(s: Paging)
    ensures var t, r := HandOver(s), Locks.V(LockOf(s));
            LockOf(t) == r.0 && t == s.(sema := t.sema, waiters := t.waiters, inside := t.inside)
            && t.inside == if r.1.Some? then Some(Job(r.1.value, Entered)) else None
  {
  }

  lemma AskKeeps(s: Paging, req: Request)
    requires PInv(s) && Pending(s, req) && !Busy(s, req.asid)
    ensures var t := Acquire(s, req); PInv(t) && SameMemory(s, t)
  {
    var t := Acquire(s, req);
    SamePages(s, t);
  }

  /** Steps that leave tables, pool, memory, disk, cache and the eviction alone. */
  lemma SamePages(s: Paging, t: Paging)
    requires PInv(s) && t.geometry == s.geometry && t.pool == s.pool && t.tables == s.tables && t.ram == s.ram
    requires t.disk == s.disk && t.tlb == s.tlb && t.alive == s.alive && t.nextFrame < POOL
    requires forall f: nat :: InLimbo(t, f) <==> InLimbo(s, f)
    requires forall a, k: nat :: InFlight(t, a, k) <==> InFlight(s, a, k)
    requires s.inside.Some? && s.inside.value.phase.Evicting? ==> t.inside == s.inside
    ensures Sane(t) && Agree(t) && Coherent(t) && SameMemory(s, t)
  {
    forall f: nat | f < POOL ensures OwnerAgrees(t, f) { assert OwnerAgrees(s, f); }
    forall a, k: nat | a in t.alive && k < PAGES ensures EntryAgrees(t, a, k) { assert EntryAgrees(s, a, k); }
  }

  lemma ReleaseKeeps(s: Paging)
    requires PInv(s) && Handling(s) && s.inside.value.phase.Mapped?
    ensures var t := HandOver(s); PInv(t) && SameMemory(s, t)
  {
    var t := HandOver(s);
    SamePages(s, t);
    if s.waiters != [] { assert Pending(s, s.waiters[0]); }
    forall i | 0 <= i < |t.waiters| ensures Pending(t, t.waiters[i]) { assert Pending(s, s.waiters[i + 1]); }
  }

  // ---- the fault handler

  lemma ChooseKeeps(s: Paging)
    requires PInv(s) && Handling(s) && s.inside.value.phase == Entered
    ensures var t := ChooseFrame(s); PInv(t) && SameMemory(s, t)
  {
    var t := ChooseFrame(s);
    SamePages(s, t);
    forall i | 0 <= i < |t.waiters| ensures Pending(t, t.waiters[i]) { assert Pending(s, s.waiters[i]); }
  }

  lemma InvalidateKeeps(s: Paging, f: nat)
    requires PInv(s) && Handling(s) && s.inside.value.phase == Chosen(f) && s.pool[f].asid != -1
    ensures s.pool[f].pte == Some((s.pool[f].asid, Index(s.pool[f].vpn)))
    ensures s.pool[f].asid in s.tables && 0 <= Index(s.pool[f].vpn) < |s.tables[s.pool[f].asid]|
    ensures var t := Unmap(s, f, s.pool[f].asid, Index(s.pool[f].vpn)); PInv(t) && SameMemory(s, t)
  {
    assert OwnerAgrees(s, f);
    var a, k: nat := s.pool[f].asid, Index(s.pool[f].vpn);
    var t := Unmap(s, f, a, k);
    forall g: nat | g < POOL ensures OwnerAgrees(t, g) {
      assert OwnerAgrees(s, g);
    }
    forall b, l: nat | b in t.alive && l < PAGES ensures EntryAgrees(t, b, l) { assert EntryAgrees(s, b, l); }
    forall i | 0 <= i < |t.waiters| ensures Pending(t, t.waiters[i]) { assert Pending(s, s.waiters[i]); }
  }

  lemma WriteBackKeeps(s: Paging, f: nat)
    requires PInv(s) && Handling(s) && s.inside.value.phase == Evicting(f)
    ensures var t := SaveVictim(s, f); PInv(t) && SameMemory(s, t)
  {
    assert OwnerAgrees(s, f);
    var a, k: nat := s.pool[f].asid, Index(s.pool[f].vpn);
    var t := SaveVictim(s, f);
    HomeInRange(s, a, k);
    forall g: nat | g < POOL ensures OwnerAgrees(t, g) { assert OwnerAgrees(s, g); }
    forall b, l: nat | b in t.alive && l < PAGES ensures EntryAgrees(t, b, l) { assert EntryAgrees(s, b, l); }
    forall i | 0 <= i < |t.waiters| ensures Pending(t, t.waiters[i]) { assert Pending(s, s.waiters[i]); }
    forall b, l: nat | b in t.alive && l < PAGES ensures Logical(t, b, l) == Logical(s, b, l) {
      if (b, l) != (a, k) { HomesDiffer(s, a, k, b, l); }
    }
  }

  /** No live process sees a frame that is free or whose entry was taken away. */
  lemma UnseenFrame(s: Paging, f: nat, a: int, k: nat)
    requires PInv(s) && f < POOL && a in s.alive && k < PAGES
    requires s.pool[f].asid == -1 || InLimbo(s, f)
    ensures !(s.tables[a][k].valid && s.tables[a][k].frame == f)
  {
    assert OwnerAgrees(s, f) && EntryAgrees(s, a, k);
  }

  lemma ReadInKeeps(s: Paging, f: nat)
    requires PInv(s) && Handling(s)
    requires s.inside.value.phase == Written(f) || (s.inside.value.phase == Chosen(f) && s.pool[f].asid == -1)
    ensures var req := s.inside.value.req;
            InDisk(s, req.asid, Index(req.vpn)) &&
            var t := FetchPage(s, f, req.asid, Index(req.vpn)); PInv(t) && SameMemory(s, t)
  {
    var a, k: nat := s.inside.value.req.asid, Index(s.inside.value.req.vpn);
    HomeInRange(s, a, k);
    var t := FetchPage(s, f, a, k);
    forall g: nat | g < POOL ensures OwnerAgrees(t, g) { assert OwnerAgrees(s, g); }
    forall b, l: nat | b in t.alive && l < PAGES ensures EntryAgrees(t, b, l) && Logical(t, b, l) == Logical(s, b, l) {
      assert EntryAgrees(s, b, l);
      UnseenFrame(s, f, b, l);
    }
    forall i | 0 <= i < |t.waiters| ensures Pending(t, t.waiters[i]) { assert Pending(s, s.waiters[i]); }
  }

  lemma EnterTableKeeps(s: Paging, f: nat)
    requires PInv(s) && Handling(s) && s.inside.value.phase == Filled(f)
    ensures var req := s.inside.value.req; var t := RecordOwner(s, f, req.asid, req.vpn); PInv(t) && SameMemory(s, t)
  {
    var t := RecordOwner(s, f, s.inside.value.req.asid, s.inside.value.req.vpn);
    forall g: nat | g < POOL ensures OwnerAgrees(t, g) { assert OwnerAgrees(s, g); }
    forall b, l: nat | b in t.alive && l < PAGES ensures EntryAgrees(t, b, l) && Logical(t, b, l) == Logical(s, b, l) {
      assert EntryAgrees(s, b, l);
      UnseenFrame(s, f, b, l);
    }
    forall i | 0 <= i < |t.waiters| ensures Pending(t, t.waiters[i]) { assert Pending(s, s.waiters[i]); }
  }

  lemma PublishKeeps(s: Paging, f: nat)
    requires PInv(s) && Handling(s) && s.inside.value.phase == Tabled(f)
    ensures var req := s.inside.value.req;
            req.asid in s.tables && 0 <= Index(req.vpn) < PAGES &&
            var t := MapPage(s, f, req.asid, Index(req.vpn)); PInv(t) && SameMemory(s, t)
  {
    var req := s.inside.value.req;
    var a, k: nat := req.asid, Index(req.vpn);
    var t := MapPage(s, f, a, k);
    assert OwnerAgrees(s, f);
    forall g: nat | g < POOL ensures OwnerAgrees(t, g) { assert OwnerAgrees(s, g); }
    forall b, l: nat | b in t.alive && l < PAGES ensures EntryAgrees(t, b, l) && Logical(t, b, l) == Logical(s, b, l) {
      assert EntryAgrees(s, b, l);
    }
    forall i | 0 <= i < |t.waiters| ensures Pending(t, t.waiters[i]) { assert Pending(s, s.waiters[i]); }
  }

  // ---- the end of a process

  lemma ExitKeeps(s: Paging)
    requires PInv(s) && s.inside.Some? && s.inside.value.req.Exit?
    ensures var t := Exited(s, s.inside.value.req.asid); PInv(t) && SameMemory(s, t)
  {
    var a := s.inside.value.req.asid;
    var t := Exited(s, a);
    forall g: nat | g < POOL ensures OwnerAgrees(t, g) { assert OwnerAgrees(s, g); }
    forall b, l: nat | b in t.alive && l < PAGES ensures EntryAgrees(t, b, l) { assert EntryAgrees(s, b, l); }
    if s.waiters != [] { assert Pending(s, s.waiters[0]); }
    forall i | 0 <= i < |t.waiters| ensures Pending(t, t.waiters[i]) { assert Pending(s, s.waiters[i + 1]); }
  }

  /** What TERMINATE makes of pool and page tables: the frames of the process are free, its
      entries have neither frame nor V, and keep D; nothing else differs. */
  lemma ExitFrees(s: Paging, t: Paging)
    requires Sane(s) && Step(s, ExitNow, t)
    ensures var a := s.inside.value.req.asid;
            && a in s.tables && t.tables.Keys == s.tables.Keys && |t.pool| == |s.pool|
            && (forall b :: b in s.tables && b != a ==> t.tables[b] == s.tables[b])
            && |t.tables[a]| == PAGES
            && (forall k :: 0 <= k < PAGES ==> t.tables[a][k] == Pte(-1, s.tables[a][k].dirty, false))
            && (forall f :: 0 <= f < POOL ==>
                  t.pool[f].asid != a && t.pool[f] == if s.pool[f].asid == a then Slot(-1, -1, None) else s.pool[f])
            && t.ram == s.ram && t.disk == s.disk && t.tlb == s.tlb && t.nextFrame == s.nextFrame
            && t.alive == s.alive - {a} && t.sema == s.sema + 1
            && (if s.sema < 0 && s.waiters != []
                then t.inside == Some(Job(s.waiters[0], Entered)) && t.waiters == s.waiters[1..]
                else t.inside == None && t.waiters == s.waiters)
  {
  }

  // ---- the processes

  lemma RefillKeeps(s: Paging, a: int, v: int)
    requires PInv(s) && a in s.alive && LegalVpn(v)
    ensures var t := s.(tlb := s.tlb[(a, v) := s.tables[a][RefillIndex(v)]]); PInv(t) && SameMemory(s, t)
  {
    HandlersAgreeIff(v);
    var t := s.(tlb := s.tlb[(a, v) := s.tables[a][RefillIndex(v)]]);
    forall f: nat | f < POOL ensures OwnerAgrees(t, f) { assert OwnerAgrees(s, f); }
    forall b, l: nat | b in t.alive && l < PAGES ensures EntryAgrees(t, b, l) { assert EntryAgrees(s, b, l); }
    forall i | 0 <= i < |t.waiters| ensures Pending(t, t.waiters[i]) { assert Pending(s, s.waiters[i]); }
  }

  lemma ForgetKeeps(s: Paging, a: int, v: int)
    requires PInv(s)
    ensures var t := s.(tlb := s.tlb - {(a, v)}); PInv(t) && SameMemory(s, t)
  {
    var t := s.(tlb := s.tlb - {(a, v)});
    forall f: nat | f < POOL ensures OwnerAgrees(t, f) { assert OwnerAgrees(s, f); }
    forall b, l: nat | b in t.alive && l < PAGES ensures EntryAgrees(t, b, l) { assert EntryAgrees(s, b, l); }
    forall i | 0 <= i < |t.waiters| ensures Pending(t, t.waiters[i]) { assert Pending(s, s.waiters[i]); }
  }

  lemma HitIsLogical(s: Paging, a: int, v: int)
    requires PInv(s) && a in s.alive && LegalVpn(v) && Hits(s, a, v)
    ensures 0 <= s.tlb[(a, v)].frame < POOL && s.ram[s.tlb[(a, v)].frame] == Logical(s, a, Index(v))
  {
    assert EntryAgrees(s, a, Index(v));
  }

  lemma StoreKeeps(s: Paging, a: int, v: int, off: nat, word: int)
    requires PInv(s) && a in s.alive && LegalVpn(v) && Hits(s, a, v) && off < BLOCK_WORDS
    ensures var f := s.tlb[(a, v)].frame; 0 <= f < POOL
    ensures var f := s.tlb[(a, v)].frame;
            var t := s.(ram := s.ram[f := s.ram[f][off := word]]);
            && PInv(t)
            && (forall b, l: nat :: b in t.alive && l < PAGES ==>
                  |Logical(s, b, l)| == BLOCK_WORDS
                  && Logical(t, b, l)
                     == if b == a && l == Index(v) then Logical(s, b, l)[off := word] else Logical(s, b, l))
  {
    HitIsLogical(s, a, v);
    var f := s.tlb[(a, v)].frame;
    var t := s.(ram := s.ram[f := s.ram[f][off := word]]);
    assert EntryAgrees(s, a, Index(v));
    assert OwnerAgrees(s, f);
    StoreShape(s, f, off, word, t);
    forall b, l: nat | b in t.alive && l < PAGES
      ensures |Logical(s, b, l)| == BLOCK_WORDS
      ensures Logical(t, b, l) == if b == a && l == Index(v) then Logical(s, b, l)[off := word] else Logical(s, b, l)
    {
      LogicalIsPage(s, b, l);
      assert EntryAgrees(s, b, l);
    }
  }

  lemma StoreShape(s: Paging, f: nat, off: nat, word: int, t: Paging)
    requires PInv(s) && f < POOL && !InLimbo(s, f) && off < BLOCK_WORDS
    requires t == s.(ram := s.ram[f := s.ram[f][off := word]])
    ensures PInv(t)
  {
    forall g: nat | g < POOL ensures OwnerAgrees(t, g) { assert OwnerAgrees(s, g); }
    forall b, l: nat | b in t.alive && l < PAGES ensures EntryAgrees(t, b, l) { assert EntryAgrees(s, b, l); }
    forall i | 0 <= i < |t.waiters| ensures Pending(t, t.waiters[i]) { assert Pending(s, s.waiters[i]); }
  }

  // ---- the theorem

  /** What one event does to page `k` of process `a`, in a flat private memory. */
  function Flat(page: Page, a: int, k: int, e: Event): Page {
    if e.Store? && e.a == a && Index(e.vpn) == k && e.off < |page| then page[e.off := e.word] else page
  }

  lemma StepIsFlat(s: Paging, e: Event, t: Paging)
    requires PInv(s) && Step(s, e, t)
    ensures PInv(t) && t.alive <= s.alive
    ensures forall a, k: nat :: a in t.alive && k < PAGES ==> Logical(t, a, k) == Flat(Logical(s, a, k), a, k, e)
  {
    match e
    case Refill(a, v) => RefillKeeps(s, a, v);
    case Forget(a, v) => ForgetKeeps(s, a, v);
    case Load(a, v, off, word) =>
    case Store(a, v, off, word) => StoreKeeps(s, a, v, off, word);
    case Ask(req) => AskKeeps(s, req);
    case Choose => ChooseKeeps(s);
    case Invalidate => InvalidateKeeps(s, s.inside.value.phase.f);
    case WriteBack => WriteBackKeeps(s, s.inside.value.phase.f);
    case ReadIn => ReadInKeeps(s, s.inside.value.phase.f);
    case EnterTable => EnterTableKeeps(s, s.inside.value.phase.f);
    case Publish => PublishKeeps(s, s.inside.value.phase.f);
    case Release => ReleaseKeeps(s);
    case ExitNow => ExitKeeps(s);
  }

  lemma LoadIsFlat(s: Paging, e: Event, t: Paging)
    requires PInv(s) && Step(s, e, t) && e.Load?
    ensures e.a in s.alive && e.off < |Logical(s, e.a, Index(e.vpn))| && e.word == Logical(s, e.a, Index(e.vpn))[e.off]
  {
    HitIsLogical(s, e.a, e.vpn);
  }

  ghost predicate Run(states: seq<Paging>, events: seq<Event>) {
    && |states| == |events| + 1
    && (forall n :: 0 <= n < |events| ==> Sane(states[n]) && Step(states[n], events[n], states[n + 1]))
  }

  /** A page of `a` after its own stores, in order; nobody else's matter. */
  function AfterStores(page: Page, a: int, k: int, events: seq<Event>): Page {
    if events == [] then page
    else Flat(AfterStores(page, a, k, events[..|events| - 1]), a, k, events[|events| - 1])
  }

  /** Every live process sees the memory it started with after its own stores. */
  lemma {:induction false} PagingIsInvisible(states: seq<Paging>, events: seq<Event>, n: nat)
    requires Run(states, events) && PInv(states[0]) && n <= |events|
    ensures PInv(states[n]) && states[n].alive <= states[0].alive
    ensures forall a, k: nat :: a in states[n].alive && k < PAGES ==>
              Logical(states[n], a, k) == AfterStores(Logical(states[0], a, k), a, k, events[..n])
  {
    if n > 0 {
      PagingIsInvisible(states, events, n - 1);
      StepIsFlat(states[n - 1], events[n - 1], states[n]);
      assert events[..n][..n - 1] == events[..n - 1];
    }
  }

  /** A load returns the last store of its own process to that word. */
  lemma LoadsAreInvisible(states: seq<Paging>, events: seq<Event>, n: nat)
    requires Run(states, events) && PInv(states[0]) && n < |events| && events[n].Load?
    ensures var e := events[n];
            var page := AfterStores(Logical(states[0], e.a, Index(e.vpn)), e.a, Index(e.vpn), events[..n]);
            e.a in states[n].alive && e.off < |page| && e.word == page[e.off]
  {
    PagingIsInvisible(states, events, n);
    LoadIsFlat(states[n], events[n], states[n + 1]);
    assert 0 <= Index(events[n].vpn) < PAGES;
  }

  /** The handler that holds the semaphore is never stuck. */
  lemma HandlerAdvances(s: Paging) returns (e: Event, t: Paging)
    requires PInv(s) && s.inside.Some?
    ensures Step(s, e, t) && t != s
    ensures e in {Choose, Invalidate, WriteBack, ReadIn, EnterTable, Publish, Release, ExitNow}
  {
    var req := s.inside.value.req;
    if req.Exit? {
      return ExitNow, Exited(s, req.asid);
    }
    var a, k := req.asid, Index(req.vpn);
    match s.inside.value.phase
    case Entered => return Choose, ChooseFrame(s);
    case Chosen(f) =>
      if s.pool[f].asid == -1 {
        ReadInKeeps(s, f);
        return ReadIn, FetchPage(s, f, a, k);
      }
      InvalidateKeeps(s, f);
      return Invalidate, Unmap(s, f, s.pool[f].asid, Index(s.pool[f].vpn));
    case Evicting(f) => return WriteBack, SaveVictim(s, f);
    case Written(f) =>
      ReadInKeeps(s, f);
      return ReadIn, FetchPage(s, f, a, k);
    case Filled(f) => return EnterTable, RecordOwner(s, f, a, req.vpn);
    case Tabled(f) => return Publish, MapPage(s, f, a, k);
    case Mapped => return Release, HandOver(s);
  }

  // ---- the start

  /** initSwapStruct and init_Uproc_pgTable: no frame taken, no page mapped. */
  ghost predicate Started(s: Paging) {
    && Sane(s) && s.alive == s.tables.Keys
    && (forall f :: 0 <= f < POOL ==> s.pool[f] == FREE)
    && (forall a, k: nat :: a in s.tables && k < PAGES ==> s.tables[a][k] == UNMAPPED)
    && s.tlb == map[] && s.sema == 1 && s.waiters == [] && s.inside == None
  }

  lemma StartedIsSound(s: Paging)
    requires Started(s)
    ensures PInv(s)
    ensures forall a, k: nat :: a in s.tables && k < PAGES ==>
              InDisk(s, a, k) && Logical(s, a, k) == s.disk[Home(s, a, k)]
  {
    forall a, k: nat | a in s.alive && k < PAGES ensures EntryAgrees(s, a, k) {
      assert s.tables[a][k] == UNMAPPED;
    }
    forall a, k: nat | a in s.tables && k < PAGES
      ensures InDisk(s, a, k) && Logical(s, a, k) == s.disk[Home(s, a, k)]
    {
      HomeInRange(s, a, k);
      assert s.tables[a][k] == UNMAPPED;
    }
  }

  /** With one process, the memory it starts with is its flash image. */
  lemma StartsWithFlashImage(s: Paging, flash: FlashDevices, k: nat)
    requires Started(s) && Flashes(flash) && |flash| == 1 && s.tables.Keys == {1} && k < PAGES
    requires forall n: nat :: n < PAGES ==>
               PagerChs(s.geometry, n) in s.disk && s.disk[PagerChs(s.geometry, n)] == Image(flash, n)
    ensures Logical(s, 1, k) == flash[0][k]
  {
    StartedIsSound(s);
  }
}
