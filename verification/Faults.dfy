/** One page fault with nobody else in between (phase3/vmSupport.c:286-373): the events of the
    handler, and what they make of pool, page tables, frames and backing store. */
module Faults {
  import opened Sequences
  import opened Disks
  import opened Paging
  import opened PagingProofs

  /** The handler's events for a fault that finds its frame free, or occupied. */
  function FaultEvents(a: int, vpn: int, free: bool): seq<Event> {
    if free then [Ask(Fault(a, vpn)), Choose, ReadIn, EnterTable, Publish, Release]
    else [Ask(Fault(a, vpn)), Choose, Invalidate, WriteBack, ReadIn, EnterTable, Publish, Release]
  }

  predicate AllTaken(pool: seq<Slot>) {
    forall g :: 0 <= g < |pool| ==> pool[g].asid != -1
  }

  /** Frame `f` is the right one: the lowest free frame, or the one under the pointer when none
      is free; and the pointer goes on exactly when its own frame was taken. */
  ghost predicate Replaces(pool: seq<Slot>, pointer: nat, f: nat, pointer': nat) {
    && f < |pool|
    && (if AllTaken(pool) then f == pointer else pool[f].asid == -1 && forall g :: 0 <= g < f ==> pool[g].asid != -1)
    && pointer' == if f == pointer then (pointer + 1) % |pool| else pointer
  }

  /** Page `vpn` of `a` has come into frame `f`, and the page that was there has gone to its
      own sector; no other frame, entry or sector differs. */
  ghost predicate Served(s: Paging, a: int, vpn: int, f: nat, t: Paging)
    requires Sane(s) && Sane(t)
  {
    f < POOL &&
    var victim := s.pool[f];
    && t.pool == s.pool[f := Slot(a, vpn, Some((a, Index(vpn))))]
    && t.disk == (if victim.asid == -1 then s.disk else s.disk[Home(s, victim.asid, Index(victim.vpn)) := s.ram[f]])
    && Home(s, a, Index(vpn)) in t.disk && t.ram == s.ram[f := t.disk[Home(s, a, Index(vpn))]]
    && t.tables.Keys == s.tables.Keys
    && (forall b, k: nat :: b in s.tables && k < PAGES ==>
          t.tables[b][k] ==
            if b == a && k == Index(vpn) then Pte(f, true, true)
            else if victim.asid != -1 && b == victim.asid && k == Index(victim.vpn) then Pte(-1, true, false)
            else s.tables[b][k])
    && t.tlb == map[] && t.geometry == s.geometry && t.alive == s.alive
  }

  /** After a refill the access that faulted finds its page, in the frame the page table names,
      exactly if the page is mapped. */
  lemma RefillHits(s: Paging, a: int, vpn: int, t: Paging)
    requires Sane(s) && Step(s, Refill(a, vpn), t)
    ensures a in s.tables && 0 <= Index(vpn) < PAGES
    ensures Hits(t, a, vpn) <==> s.tables[a][Index(vpn)].valid
    ensures Hits(t, a, vpn) ==> t.tlb[(a, vpn)].frame == s.tables[a][Index(vpn)].frame
  {
    HandlersAgreeIff(vpn);
  }

  lemma ChoiceReplaces(pool: seq<Slot>, pointer: nat)
    requires pointer < |pool|
    ensures Replaces(pool, pointer, Pick(pool, pointer), NextAfter(pool, pointer))
  {
  }

  /** The page in frame `f` is unmapped and saved. */
  lemma EvictionSaves(s: Paging, u: Paging, t: Paging, f: nat)
    requires PInv(s) && Handling(s) && s.inside.value.phase == Chosen(f) && s.pool[f].asid != -1
    requires Sane(u) && Step(s, Invalidate, u) && Step(u, WriteBack, t)
    ensures var b, l := s.pool[f].asid, Index(s.pool[f].vpn);
            && b in s.tables && 0 <= l < PAGES
            && t == s.(tables := s.tables[b := s.tables[b][l := Pte(-1, true, false)]], tlb := map[],
                       disk := s.disk[Home(s, b, l) := s.ram[f]],
                       inside := Some(s.inside.value.(phase := Written(f))))
  {
    InvalidateKeeps(s, f);
  }

  /** The missing page is fetched, recorded and mapped, and the semaphore released. */
  lemma FillingMaps(s: Paging, t: Paging, u: Paging, v: Paging, w: Paging, a: int, vpn: int, f: nat)
    requires PInv(s) && s.inside.Some? && s.inside.value.req == Fault(a, vpn) && s.waiters == []
    requires s.inside.value.phase == Written(f) || (s.inside.value.phase == Chosen(f) && s.pool[f].asid == -1)
    requires Step(s, ReadIn, t) && Sane(t) && Step(t, EnterTable, u) && Sane(u) && Step(u, Publish, v)
    requires Sane(v) && Step(v, Release, w)
    ensures f < POOL && a in s.tables && 0 <= Index(vpn) < PAGES && Home(s, a, Index(vpn)) in s.disk
    ensures w == s.(ram := s.ram[f := s.disk[Home(s, a, Index(vpn))]],
                    pool := s.pool[f := Slot(a, vpn, Some((a, Index(vpn))))],
                    tables := s.tables[a := s.tables[a][Index(vpn) := Pte(f, true, true)]], tlb := map[],
                    sema := s.sema + 1, inside := None)
  {
  }

  /** P, with nobody inside, and the choice of a frame. */
  lemma ChoiceIs(s: Paging, r: Paging, c: Paging, a: int, vpn: int)
    requires PInv(s) && s.inside == None && Step(s, Ask(Fault(a, vpn)), r) && Sane(r) && Step(r, Choose, c)
    ensures var f := Pick(s.pool, s.nextFrame);
            && c == s.(sema := s.sema - 1, nextFrame := c.nextFrame, inside := Some(Job(Fault(a, vpn), Chosen(f))))
            && Replaces(s.pool, s.nextFrame, f, c.nextFrame)
  {
    ChoiceReplaces(s.pool, s.nextFrame);
  }

  /** From the choice `c` of frame `f`, over its emptying `e`, to the end `t`. */
  lemma ServedAfter(s: Paging, a: int, vpn: int, f: nat, free: bool, c: Paging, e: Paging, t: Paging)
    requires Sane(s) && Sane(t) && f < POOL && a in s.tables && 0 <= Index(vpn) < PAGES
    requires Replaces(s.pool, s.nextFrame, f, c.nextFrame)
    requires c == s.(sema := s.sema - 1, nextFrame := c.nextFrame, inside := Some(Job(Fault(a, vpn), Chosen(f))))
    requires var b, l := s.pool[f].asid, Index(s.pool[f].vpn);
             if free then b == -1 && e == c
             else b != -1 && b in s.tables && 0 <= l < PAGES
                  && e == c.(tables := c.tables[b := c.tables[b][l := Pte(-1, true, false)]], tlb := map[],
                             disk := c.disk[Home(c, b, l) := c.ram[f]], inside := e.inside)
    requires Home(s, a, Index(vpn)) in e.disk
    requires t == e.(ram := e.ram[f := e.disk[Home(e, a, Index(vpn))]],
                     pool := e.pool[f := Slot(a, vpn, Some((a, Index(vpn))))],
                     tables := e.tables[a := e.tables[a][Index(vpn) := Pte(f, true, true)]], tlb := map[],
                     sema := e.sema + 1, inside := None)
    ensures Replaces(s.pool, s.nextFrame, f, t.nextFrame) && Served(s, a, vpn, f, t) && (free <==> !AllTaken(s.pool))
    ensures t.inside == None && t.waiters == s.waiters && t.sema == s.sema
  {
  }

  lemma RunStep(states: seq<Paging>, events: seq<Event>, n: nat, e: Event)
    requires Run(states, events) && n < |events| && events[n] == e
    ensures n + 1 < |states| && Sane(states[n]) && Step(states[n], e, states[n + 1])
  {
  }

  /** The first two events: the handler has its frame. */
  lemma Choosing(states: seq<Paging>, events: seq<Event>, a: int, vpn: int) returns (f: nat)
    requires Run(states, events) && PInv(states[0]) && states[0].inside == None
    requires |events| > 2 && events[0] == Ask(Fault(a, vpn)) && events[1] == Choose
    ensures |states| == |events| + 1
    ensures var s, c := states[0], states[2];
            && s.waiters == [] && Replaces(s.pool, s.nextFrame, f, c.nextFrame)
            && c == s.(sema := s.sema - 1, nextFrame := c.nextFrame, inside := Some(Job(Fault(a, vpn), Chosen(f))))
  {
    RunStep(states, events, 0, Ask(Fault(a, vpn)));
    RunStep(states, events, 1, Choose);
    RunStep(states, events, 2, events[2]);
    f := Pick(states[0].pool, states[0].nextFrame);
    ChoiceIs(states[0], states[1], states[2], a, vpn);
  }

  /** The next two, if the frame is taken: it has been emptied. */
  lemma Evicting(states: seq<Paging>, events: seq<Event>, f: nat)
    requires Run(states, events) && |states| == |events| + 1 && |events| > 4 && PInv(states[0])
    requires events[2] == Invalidate && events[3] == WriteBack
    requires Handling(states[2]) && states[2].inside.value.phase == Chosen(f)
    ensures f < POOL == |states[2].pool|
    ensures var s := states[2];
            var b, l := s.pool[f].asid, Index(s.pool[f].vpn);
            && b != -1 && b in s.tables && 0 <= l < PAGES == |s.tables[b]| && f < |s.ram|
            && states[4] == s.(tables := s.tables[b := s.tables[b][l := Pte(-1, true, false)]], tlb := map[],
                               disk := s.disk[Home(s, b, l) := s.ram[f]],
                               inside := Some(s.inside.value.(phase := Written(f))))
  {
    SaneAt(states, events, 2);
    RunStep(states, events, 2, Invalidate);
    RunStep(states, events, 3, WriteBack);
    EvictionSaves(states[2], states[3], states[4], f);
  }

  /** The last four, from state `n` on. */
  lemma Filling(states: seq<Paging>, events: seq<Event>, n: nat, a: int, vpn: int, f: nat)
    requires Run(states, events) && |states| == |events| + 1 && n + 4 == |events| && PInv(states[0])
    requires events[n] == ReadIn && events[n + 1] == EnterTable && events[n + 2] == Publish && events[n + 3] == Release
    requires states[n].inside.Some? && states[n].inside.value.req == Fault(a, vpn) && states[n].waiters == []
    requires states[n].inside.value.phase in {Chosen(f), Written(f)}
    ensures var e := states[n];
            && f < POOL == |e.pool| == |e.ram| && a in e.tables && 0 <= Index(vpn) < PAGES == |e.tables[a]|
            && Home(e, a, Index(vpn)) in e.disk && (e.inside.value.phase == Chosen(f) ==> e.pool[f].asid == -1)
            && states[n + 4] == e.(ram := e.ram[f := e.disk[Home(e, a, Index(vpn))]],
                                   pool := e.pool[f := Slot(a, vpn, Some((a, Index(vpn))))],
                                   tables := e.tables[a := e.tables[a][Index(vpn) := Pte(f, true, true)]], tlb := map[],
                                   sema := e.sema + 1, inside := None)
  {
    SaneAt(states, events, n);
    RunStep(states, events, n, ReadIn);
    RunStep(states, events, n + 1, EnterTable);
    RunStep(states, events, n + 2, Publish);
    RunStep(states, events, n + 3, Release);
    FillingMaps(states[n], states[n + 1], states[n + 2], states[n + 3], states[n + 4], a, vpn, f);
  }

  /** The run of one fault serves it. */
  lemma FaultServes(states: seq<Paging>, a: int, vpn: int, free: bool) returns (f: nat)
    requires Run(states, FaultEvents(a, vpn, free)) && PInv(states[0]) && states[0].inside == None
    ensures Sane(states[0]) && Sane(states[|states| - 1])
    ensures var s, t := states[0], states[|states| - 1];
            && Replaces(s.pool, s.nextFrame, f, t.nextFrame) && Served(s, a, vpn, f, t)
            && (free <==> !AllTaken(s.pool)) && t.inside == None && t.waiters == [] && t.sema == s.sema
  {
    var events := FaultEvents(a, vpn, free);
    SaneEnds(states, events);
    f := Choosing(states, events, a, vpn);
    if free {
      FreeServes(states, a, vpn, f);
    } else {
      EvictionServes(states, a, vpn, f);
    }
  }

  lemma FreeServes(states: seq<Paging>, a: int, vpn: int, f: nat)
    requires var events := FaultEvents(a, vpn, true);
             Run(states, events) && PInv(states[0]) && Sane(states[0]) && Sane(states[|states| - 1])
    requires var s, c := states[0], states[2];
             && s.waiters == [] && Replaces(s.pool, s.nextFrame, f, c.nextFrame)
             && c == s.(sema := s.sema - 1, nextFrame := c.nextFrame, inside := Some(Job(Fault(a, vpn), Chosen(f))))
    ensures var s, t := states[0], states[|states| - 1];
            && Replaces(s.pool, s.nextFrame, f, t.nextFrame) && Served(s, a, vpn, f, t)
            && !AllTaken(s.pool) && t.inside == None && t.waiters == [] && t.sema == s.sema
  {
    Filling(states, FaultEvents(a, vpn, true), 2, a, vpn, f);
    ServedAfter(states[0], a, vpn, f, true, states[2], states[2], states[6]);
  }

  lemma EvictionServes(states: seq<Paging>, a: int, vpn: int, f: nat)
    requires var events := FaultEvents(a, vpn, false);
             Run(states, events) && PInv(states[0]) && Sane(states[0]) && Sane(states[|states| - 1])
    requires var s, c := states[0], states[2];
             && s.waiters == [] && Replaces(s.pool, s.nextFrame, f, c.nextFrame)
             && c == s.(sema := s.sema - 1, nextFrame := c.nextFrame, inside := Some(Job(Fault(a, vpn), Chosen(f))))
    ensures var s, t := states[0], states[|states| - 1];
            && Replaces(s.pool, s.nextFrame, f, t.nextFrame) && Served(s, a, vpn, f, t)
            && AllTaken(s.pool) && t.inside == None && t.waiters == [] && t.sema == s.sema
  {
    Evicting(states, FaultEvents(a, vpn, false), f);
    Filling(states, FaultEvents(a, vpn, false), 4, a, vpn, f);
    ServedAfter(states[0], a, vpn, f, false, states[2], states[4], states[8]);
  }

  lemma SaneEnds(states: seq<Paging>, events: seq<Event>)
    requires Run(states, events) && PInv(states[0])
    ensures Sane(states[0]) && Sane(states[|events|])
  {
    SaneAt(states, events, |events|);
  }

  lemma SaneAt(states: seq<Paging>, events: seq<Event>, n: nat)
    requires Run(states, events) && PInv(states[0]) && n <= |events|
    ensures PInv(states[n])
  {
    PagingIsInvisible(states, events, n);
  }

  /** Nobody stores anything in it. */
  lemma FaultKeepsMemory(states: seq<Paging>, a: int, vpn: int, free: bool)
    requires Run(states, FaultEvents(a, vpn, free)) && PInv(states[0])
    ensures PInv(states[|states| - 1]) && SameMemory(states[0], states[|states| - 1])
  {
    var events := FaultEvents(a, vpn, free);
    PagingIsInvisible(states, events, |events|);
    assert events[..|events|] == events;
    forall b, k: nat | b in states[|events|].alive && k < PAGES
      ensures Logical(states[|events|], b, k) == Logical(states[0], b, k)
    {
      NoStores(Logical(states[0], b, k), b, k, events);
    }
  }

  lemma {:induction false} NoStores(page: Page, a: int, k: int, events: seq<Event>)
    requires forall e :: e in events ==> !e.Store?
    ensures AfterStores(page, a, k, events) == page
  {
    if events != [] {
      assert events[|events| - 1] in events;
      NoStores(page, a, k, events[..|events| - 1]);
    }
  }

  // ---- runs, joined

  ghost function Runs(events: seq<Event>): iset<seq<Paging>> { iset states | Run(states, events) }

  lemma OneStep(s: Paging, e: Event, t: Paging)
    requires Sane(s) && Step(s, e, t)
    ensures [s, t] in Runs([e])
  {
  }

  lemma Joined(states: seq<Paging>, events: seq<Event>, more: seq<Paging>, further: seq<Event>)
    requires Run(states, events) && Run(more, further) && states[|events|] == more[0]
    ensures Run(states + more[1..], events + further)
    ensures (states + more[1..])[0] == states[0] && (states + more[1..])[|events| + |further|] == more[|further|]
  {
    var all, log := states + more[1..], events + further;
    forall n | 0 <= n < |log| ensures Sane(all[n]) && Step(all[n], log[n], all[n + 1]) {
      if n < |events| {
        assert Step(states[n], events[n], states[n + 1]);
      } else {
        var k := n - |events|;
        assert Step(more[k], further[k], more[k + 1]) && all[n + 1] == more[k + 1];
        assert all[n] == more[k];
      }
    }
  }
}
