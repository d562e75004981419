/** The order of replacement (phase3/vmSupport.c:105-126): first in, first out as long as frames
    are only filled; exactly when a fill keeps that order once frames are freed too. */
module Replacement {
  import opened DiskGeometry
  import opened Paging
  import opened Faults

  // ---- frames that are only filled

  /** Calls of page_replace whose frame is then filled, and no frame is ever freed. */
  ghost predicate Filling(pools: seq<seq<Slot>>, pointers: seq<nat>) {
    && |pools| == |pointers| > 0
    && |pools[0]| == POOL && pointers[0] == 0 && (forall f :: 0 <= f < POOL ==> pools[0][f] == FREE)
    && (forall n :: 0 <= n < |pools| - 1 ==> Fills(pools[n], pointers[n], pools[n + 1], pointers[n + 1]))
  }

  ghost predicate Fills(pool: seq<Slot>, pointer: nat, pool': seq<Slot>, pointer': nat) {
    && pool != [] && Pick(pool, pointer) < |pool| && pointer' == NextAfter(pool, pointer)
    && exists slot: Slot :: slot.asid != -1 && pool' == pool[Pick(pool, pointer) := slot]
  }

  lemma FirstFreeIs(pool: seq<Slot>, i: nat, f: nat)
    requires i <= f <= |pool| && (forall j :: i <= j < f ==> pool[j].asid != -1) && (f < |pool| ==> pool[f].asid == -1)
    ensures FirstFree(pool, i) == f
    decreases |pool| - i
  {
    if i < f { FirstFreeIs(pool, i + 1, f); }
  }

  lemma ModIs(n: nat, d: Dim, q: int, r: nat)
    requires n == q * d + r && r < d
    ensures n % d == r
  {
    DivisionIsUnique(n, d, q, r);
  }

  lemma ModNext(n: nat, d: Dim)
    ensures (n % d + 1) % d == (n + 1) % d
  {
    var q, r := n / d, n % d;
    assert n == q * d + r;
    if r + 1 < d {
      ModIs(n + 1, d, q, r + 1);
      ModIs(r + 1, d, 0, r + 1);
    } else {
      assert (q + 1) * d == q * d + d;
      ModIs(n + 1, d, q + 1, 0);
      ModIs(r + 1, d, 1, 0);
    }
  }

  /** Exactly the first `n` frames are taken. */
  ghost predicate FirstTaken(pool: seq<Slot>, n: nat) {
    |pool| == POOL && forall f :: 0 <= f < POOL ==> (pool[f].asid == -1 <==> n <= f)
  }

  lemma PickInOrder(pool: seq<Slot>, n: nat)
    requires FirstTaken(pool, n)
    ensures Pick(pool, n % POOL) == n % POOL && NextAfter(pool, n % POOL) == (n + 1) % POOL
  {
    ModNext(n, POOL);
    if n < POOL {
      FirstFreeIs(pool, 0, n);
      ModIs(n, POOL, 0, n);
    } else {
      FirstFreeIs(pool, 0, POOL);
    }
  }

  /** First in, first out: the `n`-th call picks frame `n` modulo the pool size. */
  lemma {:induction false} ReplacementOrder(pools: seq<seq<Slot>>, pointers: seq<nat>, n: nat)
    requires Filling(pools, pointers) && n < |pools|
    ensures FirstTaken(pools[n], n) && pointers[n] == n % POOL && Pick(pools[n], pointers[n]) == n % POOL
  {
    if n > 0 {
      ReplacementOrder(pools, pointers, n - 1);
      assert Fills(pools[n - 1], pointers[n - 1], pools[n], pointers[n]);
      PickInOrder(pools[n - 1], n - 1);
      if n <= POOL { ModIs(n - 1, POOL, 0, n - 1); }
    } else {
      ModIs(0, POOL, 0, 0);
    }
    PickInOrder(pools[n], n);
  }

  /** The last time before `n` that is `f` modulo `d`. */
  lemma LastTime(n: nat, d: Dim, f: nat) returns (m: nat)
    requires d <= n && f < d && f != n % d
    ensures n - d < m < n && m % d == f
  {
    var q, r := n / d, n % d;
    assert n == q * d + r && q >= 1;
    var p := if f < r then q else q - 1;
    Scale(0, p, d);
    m := p * d + f;
    ModIs(m, d, p, f);
  }

  lemma OnePeriod(n: nat, d: Dim, i: nat)
    requires d <= n && n - d <= i < n
    ensures i % d == n % d <==> i == n - d
  {
    var q, r, j := n / d, n % d, i - (n - d);
    assert n == q * d + r;
    if r + j < d {
      assert i == (q - 1) * d + (r + j);
      ModIs(i, d, q - 1, r + j);
    } else {
      assert i == q * d + (r + j - d);
      ModIs(i, d, q, r + j - d);
    }
  }

  /** So the victim is always the longest resident: since it was filled, `POOL` calls ago,
      every other frame was. */
  lemma VictimIsOldest(pools: seq<seq<Slot>>, pointers: seq<nat>, n: nat, f: nat) returns (m: nat)
    requires Filling(pools, pointers) && POOL <= n < |pools| && f < POOL && f != Pick(pools[n], pointers[n])
    ensures n - POOL < m < n && Pick(pools[m], pointers[m]) == f
    ensures Pick(pools[n - POOL], pointers[n - POOL]) == Pick(pools[n], pointers[n])
    ensures forall i: nat :: n - POOL < i < n ==> Pick(pools[i], pointers[i]) != Pick(pools[n], pointers[n])
  {
    ReplacementOrder(pools, pointers, n);
    m := LastTime(n, POOL, f);
    ReplacementOrder(pools, pointers, m);
    forall i: nat | n - POOL <= i < n ensures Pick(pools[i], pointers[i]) == n % POOL <==> i == n - POOL {
      ReplacementOrder(pools, pointers, i);
      OnePeriod(n, POOL, i);
    }
  }

  // ---- frames that are filled and freed

  /** How far the pointer has to go to frame `f`. */
  function Distance(pointer: nat, f: nat, d: nat): nat
    requires pointer < d && f < d
  {
    if f >= pointer then f - pointer else f + d - pointer
  }

  /** Going round from the pointer, the taken frames come in the order of their filling;
      `filled[f]` is when frame `f` last was. */
  ghost predicate InOrder(pool: seq<Slot>, filled: seq<int>, pointer: nat)
    requires pointer < |pool| == |filled|
  {
    forall f: nat, g: nat {:trigger filled[f], filled[g]} ::
      (f < |pool| && g < |pool| && pool[f].asid != -1 && pool[g].asid != -1
       && Distance(pointer, f, |pool|) < Distance(pointer, g, |pool|)) ==> filled[f] < filled[g]
  }

  /** In order, the victim is the oldest page. */
  lemma VictimInOrder(pool: seq<Slot>, filled: seq<int>, pointer: nat, f: nat, pointer': nat)
    requires pointer < |pool| == |filled| && InOrder(pool, filled, pointer)
    requires AllTaken(pool) && Replaces(pool, pointer, f, pointer')
    ensures forall g: nat :: g < |pool| && g != f ==> filled[f] < filled[g]
  {
    forall g: nat | g < |pool| && g != f ensures filled[f] < filled[g] {
      assert Distance(pointer, f, |pool|) < Distance(pointer, g, |pool|);
    }
  }

  /** Freeing frames keeps the order. */
  lemma FreeingKeepsOrder(pool: seq<Slot>, filled: seq<int>, pointer: nat, pool': seq<Slot>)
    requires pointer < |pool| == |filled| == |pool'| && InOrder(pool, filled, pointer)
    requires forall f :: 0 <= f < |pool| && pool'[f].asid != -1 ==> pool[f].asid != -1
    ensures InOrder(pool', filled, pointer)
  {
  }

  /** Filling keeps it if and only if the frame is the pointer's, or no taken frame lies
      further round than it. */
  lemma FillingKeepsOrderIff(pool: seq<Slot>, filled: seq<int>, pointer: nat, now: int,
                             f: nat, pointer': nat, slot: Slot)
    requires pointer < |pool| == |filled| && InOrder(pool, filled, pointer) && slot.asid != -1
    requires forall g :: 0 <= g < |pool| ==> filled[g] < now
    requires Replaces(pool, pointer, f, pointer')
    ensures InOrder(pool[f := slot], filled[f := now], pointer') <==>
            f == pointer || forall g: nat :: g < |pool| && pool[g].asid != -1 ==>
                              Distance(pointer, g, |pool|) < Distance(pointer, f, |pool|)
  {
    if f == pointer {
      PointerFillKeepsOrder(pool, filled, pointer, now, pointer', slot);
    } else {
      SideFillKeepsOrderIff(pool, filled, pointer, now, f, slot);
    }
  }

  lemma PointerFillKeepsOrder(pool: seq<Slot>, filled: seq<int>, pointer: nat, now: int, pointer': nat, slot: Slot)
    requires pointer < |pool| == |filled| && InOrder(pool, filled, pointer)
    requires forall g :: 0 <= g < |pool| ==> filled[g] < now
    requires pointer' == (pointer + 1) % |pool|
    ensures InOrder(pool[pointer := slot], filled[pointer := now], pointer')
  {
    var d, pool', filled' := |pool|, pool[pointer := slot], filled[pointer := now];
    NextIs(pointer, d);
    forall f: nat, g: nat | f < d && g < d && pool'[f].asid != -1 && pool'[g].asid != -1
                            && Distance(pointer', f, d) < Distance(pointer', g, d)
      ensures filled'[f] < filled'[g]
    {
      if g != pointer {
        assert f != pointer;
        assert Distance(pointer, f, d) < Distance(pointer, g, d);
      }
    }
  }

  lemma NextIs(pointer: nat, d: nat)
    requires pointer < d
    ensures (pointer + 1) % d == if pointer + 1 == d then 0 else pointer + 1
  {
    if pointer + 1 < d { ModIs(pointer + 1, d, 0, pointer + 1); } else { ModIs(d, d, 1, 0); }
  }

  lemma SideFillKeepsOrderIff(pool: seq<Slot>, filled: seq<int>, pointer: nat, now: int, f: nat, slot: Slot)
    requires pointer < |pool| == |filled| && f < |pool| && InOrder(pool, filled, pointer) && slot.asid != -1
    requires pool[f].asid == -1 && forall g :: 0 <= g < |pool| ==> filled[g] < now
    ensures InOrder(pool[f := slot], filled[f := now], pointer) <==>
            forall g: nat :: g < |pool| && pool[g].asid != -1 ==>
              Distance(pointer, g, |pool|) < Distance(pointer, f, |pool|)
  {
    var d, pool', filled' := |pool|, pool[f := slot], filled[f := now];
    if InOrder(pool', filled', pointer) {
      forall g: nat | g < d && pool[g].asid != -1 ensures Distance(pointer, g, d) < Distance(pointer, f, d) {
        assert pool'[g].asid != -1 && pool'[f].asid != -1 && filled'[g] < filled'[f];
      }
    }
  }

  /** The pointer stands still when a free frame elsewhere is filled: its own frame is the next
      victim as soon as no frame is free. */
  lemma PointerWaits(pool: seq<Slot>, pointer: nat, f: nat, pointer': nat, slot: Slot, g: nat, pointer'': nat)
    requires Replaces(pool, pointer, f, pointer') && f != pointer && slot.asid != -1 && pointer < |pool|
    requires AllTaken(pool[f := slot]) && Replaces(pool[f := slot], pointer', g, pointer'')
    ensures g == pointer
  {
  }

  /** Two frames or more: the page that came last is never the next to go, whatever is freed
      in between. */
  lemma LastIsSafe(pool: seq<Slot>, pointer: nat, f: nat, pointer': nat, pool': seq<Slot>, g: nat, pointer'': nat)
    requires pointer < |pool| == |pool'| && |pool| >= 2 && Replaces(pool, pointer, f, pointer')
    requires AllTaken(pool') && Replaces(pool', pointer', g, pointer'')
    ensures g != f
  {
    NextIs(pointer, |pool|);
  }

  /** But with three frames or more it need not be the oldest that goes: the frame after the
      pointer is freed and filled again, the pointer's frame is replaced, and the next victim
      is the page that came in last but one. */
  lemma FreesBreakTheOrder(slot: Slot) returns (pool: seq<Slot>, filled: seq<int>)
    requires POOL >= 3 && slot.asid != -1
    ensures |pool| == |filled| == POOL && InOrder(pool, filled, 0) && pool[1] == FREE
    ensures forall f :: 0 <= f < POOL ==> filled[f] < POOL && (f != 1 ==> pool[f].asid != -1)
    ensures Replaces(pool, 0, 1, 0)
    ensures var all, times := pool[1 := slot], filled[1 := POOL];
            && AllTaken(all) && Replaces(all, 0, 0, 1)
            && Replaces(all[0 := slot], 1, 1, 2 % POOL) && times[1] > times[2]
  {
    pool := seq(POOL, i => slot)[1 := FREE];
    filled := seq(POOL, i => i);
    NextIs(0, POOL);
  }
}
