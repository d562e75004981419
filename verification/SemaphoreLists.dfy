/** The Active Semaphore List as a value (phase1/asl.c): the descriptors between
    the two dummies, in list order, and the number of descriptors in the pool.

    `ActiveSemaphores` proves that the linked structure implements these functions. */
module SemaphoreLists {
  import opened Sequences

  /** The kernel's NULL is an address above every semaphore. */
  const NULL_ADDR := 0xFFFFFFFF

  datatype Desc<T> = Desc(addr: int, queue: seq<T>)
  datatype SemList<T> = SemList(descs: seq<Desc<T>>, spare: nat)

  predicate Ascending<T>(ds: seq<Desc<T>>) {
    |ds| < 2 || (ds[0].addr < ds[1].addr && Ascending(ds[1..]))
  }

  lemma {:induction false} AscendingPairs<T>(ds: seq<Desc<T>>)
    ensures Ascending(ds) <==> forall i, j :: 0 <= i < j < |ds| ==> ds[i].addr < ds[j].addr
  {
    if |ds| >= 2 {
      var t := ds[1..];
      AscendingPairs(t);
      if Ascending(ds) {
        forall i, j | 0 <= i < j < |ds| ensures ds[i].addr < ds[j].addr {
          assert ds[j] == t[j - 1];
          assert i > 0 ==> ds[i] == t[i - 1];
          assert j > 1 ==> t[0].addr < t[j - 1].addr;
        }
      }
      if forall i, j :: 0 <= i < j < |ds| ==> ds[i].addr < ds[j].addr {
        assert forall i :: 0 <= i < |t| ==> t[i] == ds[i + 1];
      }
    }
  }

  /** The order depends on the addresses alone. */
  lemma SameAddresses<T, U>(ds: seq<Desc<T>>, es: seq<Desc<U>>)
    requires Ascending(ds) && |es| == |ds| && forall i :: 0 <= i < |ds| ==> es[i].addr == ds[i].addr
    ensures Ascending(es)
  {
    AscendingPairs(ds);
    AscendingPairs(es);
  }

  /** How many descriptors the traversal passes: it stops at the first address not below `a`. */
  function Slot<T>(ds: seq<Desc<T>>, a: int): (k: nat)
    ensures k <= |ds|
  {
    if ds == [] || a <= ds[0].addr then 0 else 1 + Slot(ds[1..], a)
  }

  lemma {:induction false} SlotDivides<T>(ds: seq<Desc<T>>, a: int)
    ensures var k := Slot(ds, a);
            && (forall i :: 0 <= i < k ==> ds[i].addr < a)
            && (k < |ds| ==> a <= ds[k].addr)
  {
    if ds != [] && ds[0].addr < a {
      SlotDivides(ds[1..], a);
      forall i | 0 <= i < Slot(ds, a) ensures ds[i].addr < a {
        assert i > 0 ==> ds[i] == ds[1..][i - 1];
      }
    }
  }

  predicate Active<T>(l: SemList<T>, a: int) {
    var k := Slot(l.descs, a);
    k < |l.descs| && l.descs[k].addr == a
  }

  /** The processes waiting on `a`, first come first. */
  function QueueOf<T>(l: SemList<T>, a: int): seq<T> {
    if Active(l, a) then l.descs[Slot(l.descs, a)].queue else []
  }

  predicate CanBlock<T>(l: SemList<T>, a: int) {
    Active(l, a) || l.spare > 0
  }

  function InsertBlocked<T>(l: SemList<T>, a: int, p: T): SemList<T> {
    var k := Slot(l.descs, a);
    if Active(l, a) then l.(descs := l.descs[k := Desc(a, l.descs[k].queue + [p])])
    else if l.spare == 0 then l
    else SemList(l.descs[..k] + [Desc(a, [p])] + l.descs[k..], l.spare - 1)
  }

  /** Takes the head of a queue; a descriptor that this empties goes back to the pool. */
  function RemoveBlocked<T>(l: SemList<T>, a: int): SemList<T> {
    var k := Slot(l.descs, a);
    if QueueOf(l, a) == [] then l
    else if |l.descs[k].queue| == 1 then SemList(l.descs[..k] + l.descs[k + 1..], l.spare + 1)
    else l.(descs := l.descs[k := Desc(a, l.descs[k].queue[1..])])
  }

  function HeadBlocked<T>(l: SemList<T>, a: int): Option<T> {
    if QueueOf(l, a) == [] then None else Some(QueueOf(l, a)[0])
  }

  /** Takes `p` out of the queue of `a`; the descriptor stays even when this empties it. */
  function OutBlocked<T(==)>(l: SemList<T>, a: int, p: T): SemList<T> {
    var k := Slot(l.descs, a);
    if p !in QueueOf(l, a) then l
    else l.(descs := l.descs[k := Desc(a, Without(l.descs[k].queue, {p}))])
  }

  // ---- the list as a finite map from addresses to queues

  lemma {:induction false} SlotOf<T>(ds: seq<Desc<T>>, k: nat)
    requires Ascending(ds) && k < |ds|
    ensures Slot(ds, ds[k].addr) == k
  {
    SlotDivides(ds, ds[k].addr);
    AscendingPairs(ds);
    var s := Slot(ds, ds[k].addr);
    assert s <= k;
  }

  lemma ActiveOf<T>(l: SemList<T>, k: nat)
    requires Ascending(l.descs) && k < |l.descs|
    ensures Slot(l.descs, l.descs[k].addr) == k
    ensures Active(l, l.descs[k].addr) && QueueOf(l, l.descs[k].addr) == l.descs[k].queue
  {
    SlotOf(l.descs, k);
  }

  lemma ActiveIff<T>(l: SemList<T>, a: int)
    requires Ascending(l.descs)
    ensures Active(l, a) <==> exists k :: 0 <= k < |l.descs| && l.descs[k].addr == a
  {
    if k :| 0 <= k < |l.descs| && l.descs[k].addr == a {
      SlotOf(l.descs, k);
    }
  }

  /** Two ascending lists with the same queues under an address agree there. */
  lemma SameQueue<T>(l: SemList<T>, m: SemList<T>, b: int)
    requires Ascending(l.descs) && Ascending(m.descs)
    requires forall k :: 0 <= k < |l.descs| && l.descs[k].addr == b ==> l.descs[k] in m.descs
    requires forall k :: 0 <= k < |m.descs| && m.descs[k].addr == b ==> m.descs[k] in l.descs
    ensures QueueOf(l, b) == QueueOf(m, b) && (Active(l, b) <==> Active(m, b))
  {
    ActiveIff(l, b);
    ActiveIff(m, b);
    if Active(l, b) {
      var k := Slot(l.descs, b);
      assert l.descs[k] in m.descs;
      var j :| 0 <= j < |m.descs| && m.descs[j] == l.descs[k];
      ActiveOf(m, j);
    }
    if Active(m, b) {
      var k := Slot(m.descs, b);
      assert m.descs[k] in l.descs;
    }
  }

  lemma SpliceAscends<T>(ds: seq<Desc<T>>, d: Desc<T>)
    requires Ascending(ds) && (Slot(ds, d.addr) < |ds| ==> ds[Slot(ds, d.addr)].addr != d.addr)
    ensures var k := Slot(ds, d.addr); Ascending(ds[..k] + [d] + ds[k..])
  {
    var k := Slot(ds, d.addr);
    SlotDivides(ds, d.addr);
    AscendingPairs(ds);
    SpliceBetween(ds, k, d, ds[..k] + [d] + ds[k..]);
  }

  lemma SpliceBetween<T>(ds: seq<Desc<T>>, k: nat, d: Desc<T>, es: seq<Desc<T>>)
    requires k <= |ds| && es == ds[..k] + [d] + ds[k..]
    requires forall i, j :: 0 <= i < j < |ds| ==> ds[i].addr < ds[j].addr
    requires forall i :: 0 <= i < k ==> ds[i].addr < d.addr
    requires k < |ds| ==> d.addr < ds[k].addr
    ensures Ascending(es)
  {
    AscendingPairs(es);
    assert forall i {:trigger es[i]} :: 0 <= i < |es| ==>
      es[i] == if i < k then ds[i] else if i == k then d else ds[i - 1];
  }

  lemma CutAscends<T>(ds: seq<Desc<T>>, k: nat)
    requires Ascending(ds) && k < |ds|
    ensures var es := ds[..k] + ds[k + 1..];
            Ascending(es) && forall i :: 0 <= i < |es| ==> es[i].addr != ds[k].addr
  {
    var es := ds[..k] + ds[k + 1..];
    AscendingPairs(ds);
    AscendingPairs(es);
    assert forall i {:trigger es[i]} :: 0 <= i < |es| ==> es[i] == if i < k then ds[i] else ds[i + 1];
  }

  /** insertBlocked appends to the queue of `a`, or fails exactly when `a` has no
      descriptor and the pool is empty; no other queue changes. */
  lemma InsertIsAppend<T>(l: SemList<T>, a: int, p: T, b: int)
    requires Ascending(l.descs)
    ensures var m := InsertBlocked(l, a, p);
            && Ascending(m.descs) && |m.descs| + m.spare == |l.descs| + l.spare
            && (CanBlock(l, a) <==> m != l)
            && QueueOf(m, b) == (if b == a && CanBlock(l, a) then QueueOf(l, a) + [p] else QueueOf(l, b))
            && (Active(m, b) <==> Active(l, b) || (b == a && CanBlock(l, a)))
  {
    var m := InsertBlocked(l, a, p);
    var k := Slot(l.descs, a);
    if CanBlock(l, a) {
      assert m.descs[k] == Desc(a, QueueOf(l, a) + [p]);
      if Active(l, a) {
        SameAddresses(l.descs, m.descs);
      } else {
        SpliceAscends(l.descs, Desc(a, [p]));
      }
      assert m != l by { ActiveOf(m, k); }
      if b == a {
        ActiveOf(m, k);
      } else {
        forall i | 0 <= i < |l.descs| && l.descs[i].addr == b ensures l.descs[i] in m.descs {
          assert l.descs[i] == if Active(l, a) || i < k then m.descs[i] else m.descs[i + 1];
        }
        SameQueue(l, m, b);
      }
    }
  }

  /** removeBlocked takes the head of the queue of `a` and touches no other queue. */
  lemma RemoveIsTail<T>(l: SemList<T>, a: int, b: int)
    requires Ascending(l.descs)
    ensures var m := RemoveBlocked(l, a);
            && Ascending(m.descs) && |m.descs| + m.spare == |l.descs| + l.spare
            && QueueOf(m, b) == (if b == a && QueueOf(l, a) != [] then QueueOf(l, a)[1..] else QueueOf(l, b))
            && (Active(m, b) <==> Active(l, b) && !(b == a && |QueueOf(l, a)| == 1))
  {
    if |QueueOf(l, a)| == 1 {
      DropDescriptor(l, Slot(l.descs, a), b);
    } else if QueueOf(l, a) != [] {
      ReplaceQueue(l, Slot(l.descs, a), QueueOf(l, a)[1..], b);
    }
  }

  lemma DropDescriptor<T>(l: SemList<T>, k: nat, b: int)
    requires Ascending(l.descs) && k < |l.descs|
    ensures var m := SemList(l.descs[..k] + l.descs[k + 1..], l.spare + 1);
            && Ascending(m.descs)
            && QueueOf(m, b) == (if b == l.descs[k].addr then [] else QueueOf(l, b))
            && (Active(m, b) <==> Active(l, b) && b != l.descs[k].addr)
  {
    var m := SemList(l.descs[..k] + l.descs[k + 1..], l.spare + 1);
    CutAscends(l.descs, k);
    if b == l.descs[k].addr {
      ActiveIff(m, b);
    } else {
      forall i | 0 <= i < |l.descs| && l.descs[i].addr == b ensures l.descs[i] in m.descs {
        assert l.descs[i] == if i < k then m.descs[i] else m.descs[i - 1];
      }
      SameQueue(l, m, b);
    }
  }

  lemma ReplaceQueue<T>(l: SemList<T>, k: nat, q: seq<T>, b: int)
    requires Ascending(l.descs) && k < |l.descs|
    ensures var m := l.(descs := l.descs[k := Desc(l.descs[k].addr, q)]);
            && Ascending(m.descs)
            && QueueOf(m, b) == (if b == l.descs[k].addr then q else QueueOf(l, b))
            && (Active(m, b) <==> Active(l, b))
  {
    var m := l.(descs := l.descs[k := Desc(l.descs[k].addr, q)]);
    SameAddresses(l.descs, m.descs);
    if b == l.descs[k].addr {
      ActiveOf(m, k);
      ActiveOf(l, k);
    } else {
      forall i | 0 <= i < |l.descs| && l.descs[i].addr == b ensures l.descs[i] in m.descs {
        assert l.descs[i] == m.descs[i];
      }
      SameQueue(l, m, b);
    }
  }

  /** outBlocked removes `p` from the queue of `a` wherever it stands. */
  lemma OutIsWithout<T>(l: SemList<T>, a: int, p: T, b: int)
    requires Ascending(l.descs)
    ensures var m := OutBlocked(l, a, p);
            && Ascending(m.descs) && |m.descs| == |l.descs| && m.spare == l.spare
            && QueueOf(m, b) == (if b == a then Without(QueueOf(l, a), {p}) else QueueOf(l, b))
            && (Active(m, b) <==> Active(l, b))
  {
    if p in QueueOf(l, a) {
      ReplaceQueue(l, Slot(l.descs, a), Without(QueueOf(l, a), {p}), b);
    } else {
      WithoutStrangers(QueueOf(l, a), {p});
    }
  }

  /** A descriptor that outBlocked emptied stays on the list and out of the pool: with one
      descriptor in all, a wait on any other address then fails. */
  lemma EmptiedDescriptorStays(p: int, q: int, a: int, b: int)
    requires a < b
    ensures var l := OutBlocked(InsertBlocked(SemList([], 1), a, p), a, p);
            QueueOf(l, a) == [] && Active(l, a) && !CanBlock(l, b) && InsertBlocked(l, b, q) == l
  {
  }

  // ---- lists without an emptied descriptor

  ghost predicate NoneEmpty<T>(l: SemList<T>) {
    forall i :: 0 <= i < |l.descs| ==> l.descs[i].queue != []
  }

  lemma InsertEmptiesNone<T>(l: SemList<T>, a: int, p: T)
    requires NoneEmpty(l)
    ensures NoneEmpty(InsertBlocked(l, a, p))
  {
    var k, m := Slot(l.descs, a), InsertBlocked(l, a, p);
    if !Active(l, a) && l.spare > 0 {
      assert forall i {:trigger m.descs[i]} :: 0 <= i < |m.descs| ==>
        m.descs[i] == if i < k then l.descs[i] else if i == k then Desc(a, [p]) else l.descs[i - 1];
    }
  }

  lemma RemoveEmptiesNone<T>(l: SemList<T>, a: int)
    requires NoneEmpty(l)
    ensures NoneEmpty(RemoveBlocked(l, a))
  {
    var k, m := Slot(l.descs, a), RemoveBlocked(l, a);
    if |QueueOf(l, a)| == 1 {
      assert forall i {:trigger m.descs[i]} :: 0 <= i < |m.descs| ==>
        m.descs[i] == if i < k then l.descs[i] else l.descs[i + 1];
    }
  }

  // ---- who waits, and how many wait in a range of addresses

  ghost function Waiting<T>(ds: seq<Desc<T>>): multiset<T> {
    if ds == [] then multiset{} else multiset(ds[0].queue) + Waiting(ds[1..])
  }

  ghost function Crowd<T>(ds: seq<Desc<T>>, lo: int, hi: int): nat {
    if ds == [] then 0 else (if lo <= ds[0].addr <= hi then |ds[0].queue| else 0) + Crowd(ds[1..], lo, hi)
  }

  lemma {:induction false} Split<T>(xs: seq<Desc<T>>, ys: seq<Desc<T>>, lo: int, hi: int)
    ensures Waiting(xs + ys) == Waiting(xs) + Waiting(ys)
    ensures Crowd(xs + ys, lo, hi) == Crowd(xs, lo, hi) + Crowd(ys, lo, hi)
  {
    if xs == [] {
      assert xs + ys == ys;
    } else {
      assert (xs + ys)[1..] == xs[1..] + ys;
      Split(xs[1..], ys, lo, hi);
    }
  }

  lemma SplitAt<T>(ds: seq<Desc<T>>, k: nat, d: Desc<T>, lo: int, hi: int)
    requires k <= |ds|
    ensures var e := ds[..k] + [d] + ds[k..];
            && Waiting(e) == Waiting(ds) + multiset(d.queue)
            && Crowd(e, lo, hi) == Crowd(ds, lo, hi) + (if lo <= d.addr <= hi then |d.queue| else 0)
  {
    assert ds == ds[..k] + ds[k..];
    Split(ds[..k], ds[k..], lo, hi);
    Split(ds[..k], [d], lo, hi);
    Split(ds[..k] + [d], ds[k..], lo, hi);
  }

  /** Replacing one descriptor changes the totals by the difference of its queues. */
  lemma SplitReplace<T>(ds: seq<Desc<T>>, k: nat, d: Desc<T>, lo: int, hi: int) returns (others: multiset<T>)
    requires k < |ds| && d.addr == ds[k].addr
    ensures Waiting(ds) == others + multiset(ds[k].queue)
    ensures Waiting(ds[k := d]) == others + multiset(d.queue)
    ensures Crowd(ds[k := d], lo, hi) - Crowd(ds, lo, hi)
         == if lo <= d.addr <= hi then |d.queue| - |ds[k].queue| else 0
  {
    var rest := ds[..k] + ds[k + 1..];
    assert rest[..k] == ds[..k] && rest[k..] == ds[k + 1..];
    SplitAt(rest, k, d, lo, hi);
    SplitAt(rest, k, ds[k], lo, hi);
    assert ds[k := d] == rest[..k] + [d] + rest[k..];
    assert ds == rest[..k] + [ds[k]] + rest[k..];
    others := Waiting(rest);
  }

  lemma InsertTotals<T>(l: SemList<T>, a: int, p: T, lo: int, hi: int)
    requires CanBlock(l, a)
    ensures var m := InsertBlocked(l, a, p);
            && Waiting(m.descs) == Waiting(l.descs) + multiset{p}
            && Crowd(m.descs, lo, hi) == Crowd(l.descs, lo, hi) + (if lo <= a <= hi then 1 else 0)
  {
    var k := Slot(l.descs, a);
    if Active(l, a) {
      var q := l.descs[k].queue;
      var _ := SplitReplace(l.descs, k, Desc(a, q + [p]), lo, hi);
      assert multiset(q + [p]) == multiset(q) + multiset{p};
    } else {
      SplitAt(l.descs, k, Desc(a, [p]), lo, hi);
    }
  }

  lemma DropTotals<T>(ds: seq<Desc<T>>, k: nat, lo: int, hi: int)
    requires k < |ds|
    ensures var rest := ds[..k] + ds[k + 1..];
            && Waiting(rest) + multiset(ds[k].queue) == Waiting(ds)
            && Crowd(rest, lo, hi) + (if lo <= ds[k].addr <= hi then |ds[k].queue| else 0) == Crowd(ds, lo, hi)
  {
    var rest := ds[..k] + ds[k + 1..];
    assert rest[..k] == ds[..k] && rest[k..] == ds[k + 1..];
    SplitAt(rest, k, ds[k], lo, hi);
    assert ds == rest[..k] + [ds[k]] + rest[k..];
  }

  lemma RemoveTotals<T>(l: SemList<T>, a: int, lo: int, hi: int)
    requires QueueOf(l, a) != []
    ensures var m := RemoveBlocked(l, a);
            && Waiting(m.descs) + multiset{QueueOf(l, a)[0]} == Waiting(l.descs)
            && Crowd(m.descs, lo, hi) + (if lo <= a <= hi then 1 else 0) == Crowd(l.descs, lo, hi)
  {
    var k := Slot(l.descs, a);
    var q := l.descs[k].queue;
    assert q == [q[0]] + q[1..];
    if |q| == 1 {
      DropTotals(l.descs, k, lo, hi);
      assert q == [q[0]];
    } else {
      var _ := SplitReplace(l.descs, k, Desc(a, q[1..]), lo, hi);
      assert multiset(q) == multiset{q[0]} + multiset(q[1..]);
    }
  }

  lemma OutTotals<T>(l: SemList<T>, a: int, p: T, lo: int, hi: int)
    requires p in QueueOf(l, a) && Ascending(l.descs)
    ensures var m := OutBlocked(l, a, p);
            && Crowd(m.descs, lo, hi) - Crowd(l.descs, lo, hi)
            == (if lo <= a <= hi then |QueueOf(m, a)| - |QueueOf(l, a)| else 0)
  {
    var k := Slot(l.descs, a);
    var m := OutBlocked(l, a, p);
    var _ := SplitReplace(l.descs, k, m.descs[k], lo, hi);
    OutIsWithout(l, a, p, a);
  }

  /** Every queue without the members of `gone`; descriptors stay where they are. */
  function WithoutAll<T(==)>(l: SemList<T>, gone: set<T>): (m: SemList<T>)
    ensures |m.descs| == |l.descs| && m.spare == l.spare
    ensures forall i :: 0 <= i < |l.descs| ==> m.descs[i] == Desc(l.descs[i].addr, Without(l.descs[i].queue, gone))
  {
    l.(descs := seq(|l.descs|, i requires 0 <= i < |l.descs| => Desc(l.descs[i].addr, Without(l.descs[i].queue, gone))))
  }

  lemma WithoutAllQueue<T>(l: SemList<T>, gone: set<T>, a: int)
    requires Ascending(l.descs)
    ensures Ascending(WithoutAll(l, gone).descs)
    ensures QueueOf(WithoutAll(l, gone), a) == Without(QueueOf(l, a), gone)
    ensures Active(WithoutAll(l, gone), a) <==> Active(l, a)
  {
    var m := WithoutAll(l, gone);
    SameAddresses(l.descs, m.descs);
    ActiveIff(m, a);
    if Active(l, a) {
      ActiveOf(m, Slot(l.descs, a));
    } else if Active(m, a) {
      ActiveOf(l, Slot(m.descs, a));
    }
  }

  lemma {:induction false} WithoutAllCount<T>(l: SemList<T>, gone: set<T>, x: T)
    ensures Waiting(WithoutAll(l, gone).descs)[x] == if x in gone then 0 else Waiting(l.descs)[x]
    decreases |l.descs|
  {
    if l.descs != [] {
      var t := SemList(l.descs[1..], l.spare);
      assert WithoutAll(l, gone).descs[1..] == WithoutAll(t, gone).descs;
      WithoutCount(l.descs[0].queue, gone, x);
      WithoutAllCount(t, gone, x);
    }
  }

  lemma {:induction false} WaitingMember<T>(ds: seq<Desc<T>>, k: nat)
    requires k < |ds|
    ensures multiset(ds[k].queue) <= Waiting(ds)
  {
    if k > 0 {
      WaitingMember(ds[1..], k - 1);
    }
  }

  lemma {:induction false} WaitingWhere<T>(ds: seq<Desc<T>>, x: T) returns (k: nat)
    requires Waiting(ds)[x] > 0
    ensures k < |ds| && x in ds[k].queue
  {
    if x in ds[0].queue {
      k := 0;
    } else {
      k := WaitingWhere(ds[1..], x);
      k := k + 1;
    }
  }

  /** A process that waits once in all waits in one queue only. */
  lemma {:induction false} WaitsOnce<T>(ds: seq<Desc<T>>, i: nat, j: nat, x: T)
    requires i < |ds| && j < |ds| && x in ds[i].queue && x in ds[j].queue && Waiting(ds)[x] <= 1
    ensures i == j
  {
    if i > 0 && j > 0 {
      WaitsOnce(ds[1..], i - 1, j - 1, x);
    } else if i + j > 0 {
      WaitingMember(ds[1..], i + j - 1);
      CountOfMember(ds[i + j].queue, x);
      CountOfMember(ds[0].queue, x);
    }
  }
}
