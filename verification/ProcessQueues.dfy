/** Process control blocks and their links (phase1/pcb.c): circular, doubly linked queues held
    by a tail pointer, child lists threaded through other fields of the same nodes, and the
    free list. Every operation is a sequence operation; operations on queues write only
    `next` and `prev`, operations on child lists never write these. */
module ProcessQueues {
  import opened Sequences
  import opened SemaphoreLists

  const STATEREGNUM := 31
  type Registers = r: seq<int> | |r| == STATEREGNUM witness seq(STATEREGNUM, i => 0)

  /** A saved processor state. */
  datatype Cpu = Cpu(entryHi: int, cause: int, status: int, pc: int, reg: Registers)

  function Zeros(): Registers { seq(STATEREGNUM, i => 0) }

  const CLEARED := Cpu(0, 0, 0, 0, Zeros())

  lemma ClearedIsZero()
    ensures CLEARED.entryHi == CLEARED.cause == CLEARED.status == CLEARED.pc == 0
    ensures forall r :: 0 <= r < 31 ==> CLEARED.reg[r] == 0
  {
  }

  class Pcb {
    var next: Pcb?
    var prev: Pcb?
    var parent: Pcb?
    var child: Pcb?
    var nextSib: Pcb?
    var prevSib: Pcb?
    var semAdd: int
    var cpu: Cpu
    var time: int
    var support: int

    constructor ()
      ensures parent == null && child == null
    {
      next, prev, parent, child, nextSib, prevSib := null, null, null, null, null, null;
      semAdd, cpu, time, support := NULL_ADDR, CLEARED, 0, NULL_ADDR;
    }

    /** No trace of a previous life. */
    ghost predicate Blank()
      reads this
    {
      && next == prev == parent == child == nextSib == prevSib == null
      && cpu == CLEARED && time == 0 && semAdd == NULL_ADDR && support == NULL_ADDR
    }
  }

  ghost function Nodes(q: seq<Pcb>): set<Pcb> {
    set p | p in q
  }

  /** The circle through `next` and `prev` that starts after `tail` visits exactly `q`. */
  ghost predicate IsQueue(tail: Pcb?, q: seq<Pcb>)
    reads Nodes(q)`next, Nodes(q)`prev
  {
    && Distinct(q)
    && tail == (if q == [] then null else q[|q| - 1])
    && (forall i {:trigger q[i].next} :: 0 <= i < |q| - 1 ==> q[i].next == q[i + 1])
    && (forall i {:trigger q[i].prev} :: 1 <= i < |q| ==> q[i].prev == q[i - 1])
    && (q != [] ==> q[|q| - 1].next == q[0] && q[0].prev == q[|q| - 1])
  }

  /** insertProcQ is append. */
  method InsertProcQ(tp: Pcb?, p: Pcb, ghost q: seq<Pcb>) returns (tail: Pcb?)
    requires IsQueue(tp, q) && p !in q
    modifies Nodes(q)`next, Nodes(q)`prev, p`next, p`prev
    ensures IsQueue(tail, q + [p]) && tail == p
  {
    DistinctPositions(q);
    DistinctPositions(q + [p]);
    if tp == null {
      p.next, p.prev := p, p;
      return p;
    }
    p.next := tp.next;
    p.prev := tp;
    tp.next.prev := p;
    tp.next := p;
    return p;
  }

  /** removeProcQ takes the head. */
  method RemoveProcQ(tp: Pcb?, ghost q: seq<Pcb>) returns (tail: Pcb?, removed: Pcb?)
    requires IsQueue(tp, q)
    modifies Nodes(q)`next, Nodes(q)`prev
    ensures if q == [] then removed == null && tail == null else removed == q[0] && IsQueue(tail, q[1..])
    ensures removed != null ==> removed.next == old(removed.next) && removed.prev == old(removed.prev)
  {
    DistinctPositions(q);
    if tp == null {
      return null, null;
    }
    var rm := tp.next;
    assert rm == q[0];
    tp.next := rm.next;
    rm.next.prev := tp;
    tail := if rm == tp then null else tp;
    return tail, rm;
  }

  method HeadProcQ(tp: Pcb?, ghost q: seq<Pcb>) returns (head: Pcb?)
    requires IsQueue(tp, q)
    ensures head == if q == [] then null else q[0]
  {
    if tp == null {
      return null;
    }
    return tp.next;
  }

  /** The search of outProcQ: it stops at `p`, or one step before it would start over. */
  method FindInQueue(tp: Pcb, p: Pcb, ghost q: seq<Pcb>) returns (found: Pcb, ghost k: nat)
    requires q != [] && IsQueue(tp, q)
    ensures k < |q| && found == q[k] && (found == p <==> p in q)
  {
    DistinctPositions(q);
    found, k := tp, |q| - 1;
    ghost var seen := 0;
    while found != p && found.next != tp
      invariant 0 <= seen < |q| && k == (if seen == 0 then |q| - 1 else seen - 1) && found == q[k]
      invariant seen > 0 ==> p !in q[..seen - 1] && q[|q| - 1] != p
      decreases |q| - seen
    {
      found := found.next;
      k := seen;
      seen := seen + 1;
    }
    if found != p {
      assert q == q[..k] + [q[k]] + q[k + 1..];
      assert p !in q[k + 1..];
    }
  }

  /** outProcQ removes `p` wherever it stands, or changes nothing. */
  method OutProcQ(tp: Pcb?, p: Pcb, ghost q: seq<Pcb>) returns (tail: Pcb?, removed: Pcb?)
    requires IsQueue(tp, q)
    modifies Nodes(q)`next, Nodes(q)`prev
    ensures IsQueue(tail, Without(q, {p}))
    ensures p in q ==> removed == p && p.next == null && p.prev == null
    ensures p !in q ==>
              removed == null && tail == tp && forall x :: x in q ==> x.next == old(x.next) && x.prev == old(x.prev)
  {
    if tp == null {
      return null, null;
    }
    var found, k := FindInQueue(tp, p, q);
    if found != p {
      WithoutStrangers(q, {p});
      return tp, null;
    }
    WithoutOne(q, k);
    tail := CutNode(tp, p, q, k);
    ClearLinks(tail, p, Without(q, {p}));
    return tail, p;
  }

  /** The queue that `p` left does not notice. */
  method ClearLinks(ghost tail: Pcb?, p: Pcb, ghost q: seq<Pcb>)
    requires IsQueue(tail, q) && p !in q
    modifies p`next, p`prev
    ensures IsQueue(tail, q) && p.next == null && p.prev == null
  {
    p.prev := null;
    p.next := null;
  }

  method CutNode(tp: Pcb, p: Pcb, ghost q: seq<Pcb>, ghost k: nat) returns (tail: Pcb?)
    requires IsQueue(tp, q) && k < |q| && q[k] == p
    modifies Nodes(q)`next, Nodes(q)`prev
    ensures IsQueue(tail, q[..k] + q[k + 1..]) && p !in q[..k] + q[k + 1..]
  {
    DistinctPositions(q);
    DistinctCut(q, k);
    ghost var r := q[..k] + q[k + 1..];
    assert forall i {:trigger r[i]} :: 0 <= i < |r| ==> r[i] == if i < k then q[i] else q[i + 1];
    var next, prev := p.next, p.prev;
    next.prev := prev;
    prev.next := next;
    tail := tp;
    if tail == p {
      tail := p.prev;
      if tail == p {
        tail := null;
      }
    }
  }

  // ---- child lists

  /** The circle of siblings from `prnt.child` visits exactly `kids`, all children of `prnt`. */
  ghost predicate IsFamily(prnt: Pcb, kids: seq<Pcb>)
    reads prnt`child, Nodes(kids)`nextSib, Nodes(kids)`prevSib, Nodes(kids)`parent
  {
    && IsCircle(kids)
    && prnt.child == (if kids == [] then null else kids[|kids| - 1])
    && (forall i :: 0 <= i < |kids| ==> kids[i].parent == prnt)
  }

  ghost predicate IsCircle(kids: seq<Pcb>)
    reads Nodes(kids)`nextSib, Nodes(kids)`prevSib
  {
    && Distinct(kids)
    && (forall i {:trigger kids[i].nextSib} :: 0 <= i < |kids| - 1 ==> kids[i].nextSib == kids[i + 1])
    && (forall i {:trigger kids[i].prevSib} :: 1 <= i < |kids| ==> kids[i].prevSib == kids[i - 1])
    && (kids != [] ==> kids[|kids| - 1].nextSib == kids[0] && kids[0].prevSib == kids[|kids| - 1])
  }

  method InsertChild(prnt: Pcb, p: Pcb, ghost kids: seq<Pcb>)
    requires IsFamily(prnt, kids) && p !in kids
    modifies prnt`child, Nodes(kids)`nextSib, Nodes(kids)`prevSib, p`nextSib, p`prevSib, p`parent
    ensures IsFamily(prnt, kids + [p])
  {
    DistinctPositions(kids);
    DistinctPositions(kids + [p]);
    var tp := prnt.child;
    if tp == null {
      prnt.child := p;
      p.nextSib, p.prevSib, p.parent := p, p, prnt;
      return;
    }
    p.nextSib := tp.nextSib;
    p.prevSib := tp;
    tp.nextSib.prevSib := p;
    tp.nextSib := p;
    prnt.child := p;
    p.parent := prnt;
  }

  /** removeChild detaches the first child. */
  method RemoveChild(p: Pcb, ghost kids: seq<Pcb>) returns (removed: Pcb?)
    requires IsFamily(p, kids)
    modifies p`child, Nodes(kids)`nextSib, Nodes(kids)`prevSib, Nodes(kids)`parent
    ensures if kids == [] then removed == null && IsFamily(p, [])
            else removed == kids[0] && kids[0].parent == null && IsFamily(p, kids[1..])
  {
    DistinctPositions(kids);
    if p.child == null {
      return null;
    }
    var rm := p.child.nextSib;
    assert rm == kids[0];
    p.child.nextSib := rm.nextSib;
    rm.nextSib.prevSib := p.child;
    if rm == p.child {
      p.child := null;
    }
    rm.parent := null;
    return rm;
  }

  ghost function ParentOf(p: Pcb): set<Pcb>
    reads p`parent
  {
    if p.parent == null then {} else {p.parent}
  }

  /** outChild detaches `p` from its parent, whichever child it is. */
  method OutChild(p: Pcb, ghost kids: seq<Pcb>) returns (removed: Pcb?)
    requires p.parent != null ==> IsFamily(p.parent, kids)
    modifies ParentOf(p)`child, Nodes(kids)`nextSib, Nodes(kids)`prevSib, p`parent
    ensures if old(p.parent) == null || p !in kids
            then removed == null && p.parent == old(p.parent)
            else removed == p && p.parent == null
    ensures old(p.parent) != null ==> IsFamily(old(p.parent), Without(kids, {p}))
    ensures removed != null ==> p.nextSib == null && p.prevSib == null
    ensures removed == null ==>
              forall x :: x in kids ==> x.nextSib == old(x.nextSib) && x.prevSib == old(x.prevSib)
  {
    var prnt := p.parent;
    if prnt == null {
      return null;
    }
    if prnt.child == null {
      return null;
    }
    var found, k := FindInFamily(prnt, p, kids);
    if found != p {
      WithoutStrangers(kids, {p});
      return null;
    }
    WithoutOne(kids, k);
    CutSibling(prnt, p, kids, k);
    return p;
  }

  method CutSibling(prnt: Pcb, p: Pcb, ghost kids: seq<Pcb>, ghost k: nat)
    requires IsFamily(prnt, kids) && k < |kids| && kids[k] == p
    modifies prnt`child, Nodes(kids)`nextSib, Nodes(kids)`prevSib, p`parent
    ensures IsFamily(prnt, kids[..k] + kids[k + 1..]) && p.parent == null && p.nextSib == null && p.prevSib == null
  {
    BeforeFirst(kids, k);
    CutCircle(p, kids, k);
    if prnt.child == p {
      prnt.child := p.prevSib;
      if prnt.child == p {
        prnt.child := null;
      }
    }
    Disown(prnt, p, kids[..k] + kids[k + 1..]);
  }

  lemma BeforeFirst(kids: seq<Pcb>, k: nat)
    requires IsCircle(kids) && k < |kids|
    ensures kids[k].prevSib == if k == 0 then kids[|kids| - 1] else kids[k - 1]
    ensures forall i :: 0 <= i < |kids| && i != k ==> kids[i] != kids[k]
  {
    DistinctPositions(kids);
  }

  method CutCircle(p: Pcb, ghost kids: seq<Pcb>, ghost k: nat)
    requires IsCircle(kids) && k < |kids| && kids[k] == p
    modifies Nodes(kids)`nextSib, Nodes(kids)`prevSib
    ensures IsCircle(kids[..k] + kids[k + 1..]) && p !in kids[..k] + kids[k + 1..]
    ensures p.prevSib == old(p.prevSib)
  {
    DistinctPositions(kids);
    DistinctCut(kids, k);
    ghost var r := kids[..k] + kids[k + 1..];
    assert forall i {:trigger r[i]} :: 0 <= i < |r| ==> r[i] == if i < k then kids[i] else kids[i + 1];
    var next, prev := p.nextSib, p.prevSib;
    next.prevSib := prev;
    prev.nextSib := next;
  }

  method Disown(ghost prnt: Pcb, p: Pcb, ghost kids: seq<Pcb>)
    requires IsFamily(prnt, kids) && p !in kids
    modifies p`nextSib, p`prevSib, p`parent
    ensures IsFamily(prnt, kids) && p.parent == null && p.nextSib == null && p.prevSib == null
  {
    p.prevSib := null;
    p.nextSib := null;
    p.parent := null;
  }

  method FindInFamily(prnt: Pcb, p: Pcb, ghost kids: seq<Pcb>) returns (found: Pcb, ghost k: nat)
    requires kids != [] && IsFamily(prnt, kids)
    ensures k < |kids| && found == kids[k] && (found == p <==> p in kids)
  {
    DistinctPositions(kids);
    var tp := prnt.child;
    found, k := tp, |kids| - 1;
    ghost var seen := 0;
    while found != p && found.nextSib != tp
      invariant 0 <= seen < |kids| && k == (if seen == 0 then |kids| - 1 else seen - 1) && found == kids[k]
      invariant seen > 0 ==> p !in kids[..seen - 1] && kids[|kids| - 1] != p
      decreases |kids| - seen
    {
      found := found.nextSib;
      k := seen;
      seen := seen + 1;
    }
    if found != p {
      assert kids == kids[..k] + [kids[k]] + kids[k + 1..];
      assert p !in kids[k + 1..];
    }
  }

  // ---- the free list

  /** The first pcb of a queue or chain. */
  ghost function Head(q: seq<Pcb>): set<Pcb> {
    if q == [] then {} else {q[0]}
  }

  /** The chain through `next` from `head` visits exactly `s`. */
  ghost predicate IsChain(head: Pcb?, s: seq<Pcb>)
    reads Nodes(s)`next
  {
    && Distinct(s)
    && head == (if s == [] then null else s[0])
    && (forall i {:trigger s[i].next} :: 0 <= i < |s| - 1 ==> s[i].next == s[i + 1])
    && (s != [] ==> s[|s| - 1].next == null)
  }

  class PcbPool {
    var freeHead: Pcb?
    ghost var free: seq<Pcb>

    ghost predicate Valid()
      reads this, Nodes(free)`next
    {
      IsChain(freeHead, free)
    }

    /** initPcbs links the whole table. */
    constructor (table: seq<Pcb>)
      requires table != [] && Distinct(table)
      modifies Nodes(table)`next
      ensures Valid() && free == table
    {
      freeHead := table[0];
      free := table;
      new;
      DistinctPositions(table);
      for i := 0 to |table| - 1
        invariant forall j :: 0 <= j < i ==> table[j].next == table[j + 1]
        invariant freeHead == table[0] && free == table
      {
        table[i].next := table[i + 1];
      }
      table[|table| - 1].next := null;
    }

    method FreePcb(p: Pcb)
      requires Valid() && p !in free
      modifies this, p`next
      ensures Valid() && free == [p] + old(free)
    {
      p.next := freeHead;
      freeHead := p;
      free := [p] + free;
    }

    /** No trace of its previous life is left in an allocated pcb. */
    method AllocPcb() returns (p: Pcb?)
      requires Valid()
      modifies this, Head(free)
      ensures Valid()
      ensures if old(free) == [] then p == null && free == [] else p == old(free)[0] && free == old(free)[1..]
      ensures p != null ==> p.Blank()
    {
      if freeHead == null {
        return null;
      }
      DistinctPositions(free);
      p := freeHead;
      freeHead := freeHead.next;
      free := free[1..];
      p.child, p.next, p.prev, p.parent := null, null, null, null;
      p.nextSib, p.prevSib := null, null;
      p.cpu, p.time, p.semAdd, p.support := CLEARED, 0, NULL_ADDR, NULL_ADDR;
    }
  }
}
