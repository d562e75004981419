/** The Active Semaphore List as linked descriptors (phase1/asl.c): a sorted list between two
    dummies, a pool of unused descriptors, and a tail pointer to a queue in each active one.
    `model` is the list as a value; every operation is the function of `SemaphoreLists` on it. */
module ActiveSemaphores {
  import opened Sequences
  import opened SemaphoreLists
  import opened ProcessQueues

  class Semd {
    var next: Semd?
    var semAdd: int
    var procQ: Pcb?

    constructor () { next, semAdd, procQ := null, 0, null; }
  }

  ghost function Descriptors(s: seq<Semd>): set<Semd> { set d | d in s }

  /** `s` in the order of the `next` links. */
  ghost predicate Linked(s: seq<Semd>)
    reads Descriptors(s)`next
  {
    Distinct(s) && forall i {:trigger s[i].next} :: 0 <= i < |s| - 1 ==> s[i].next == s[i + 1]
  }

  /** The addresses of the active descriptors, and the mark of the tail. */
  ghost predicate Addressed(path: seq<Semd>, ds: seq<Desc<Pcb>>, tailAddr: int)
    reads Descriptors(path)`semAdd
  {
    && |path| == |ds| + 2 && Ascending(ds)
    && path[|path| - 1].semAdd == tailAddr
    && (forall i {:trigger ds[i]} :: 0 <= i < |ds| ==> path[i + 1].semAdd == ds[i].addr != tailAddr)
  }

  /** The unused descriptors, from the first one on. */
  ghost predicate IsPool(first: Semd?, pool: seq<Semd>)
    reads Descriptors(pool)`next
  {
    && Linked(pool) && first == (if pool == [] then null else pool[0])
    && (pool != [] ==> pool[|pool| - 1].next == null)
  }

  lemma LinkedInserted(path: seq<Semd>, k: nat, d: Semd)
    requires k < |path| - 1 && Distinct(path) && d !in path && path[k].next == d && d.next == path[k + 1]
    requires forall i {:trigger path[i].next} :: 0 <= i < |path| - 1 && i != k ==> path[i].next == path[i + 1]
    ensures Linked(path[..k + 1] + [d] + path[k + 1..])
  {
    var t := path[..k + 1] + [d] + path[k + 1..];
    DistinctSplice(path, k + 1, d);
    DistinctPositions(path);
    assert forall i :: 0 <= i < |t| ==> t[i] == if i <= k then path[i] else if i == k + 1 then d else path[i - 1];
  }

  lemma AddressedInserted(path: seq<Semd>, ds: seq<Desc<Pcb>>, tailAddr: int, k: nat, d: Semd)
    requires Addressed(path, ds, tailAddr) && d.semAdd != tailAddr
    requires k == Slot(ds, d.semAdd) && (k < |ds| ==> ds[k].addr != d.semAdd)
    ensures Addressed(path[..k + 1] + [d] + path[k + 1..], ds[..k] + [Desc(d.semAdd, [])] + ds[k..], tailAddr)
  {
    SpliceAscends(ds, Desc(d.semAdd, []));
    AddressedSpliced(path, ds, tailAddr, k, d, ds[..k] + [Desc(d.semAdd, [])] + ds[k..]);
  }

  lemma AddressedSpliced(path: seq<Semd>, ds: seq<Desc<Pcb>>, tailAddr: int, k: nat, d: Semd, es: seq<Desc<Pcb>>)
    requires Addressed(path, ds, tailAddr) && d.semAdd != tailAddr && k <= |ds|
    requires es == ds[..k] + [Desc(d.semAdd, [])] + ds[k..] && Ascending(es)
    ensures Addressed(path[..k + 1] + [d] + path[k + 1..], es, tailAddr)
  {
    assert forall i {:trigger es[i]} :: 0 <= i < |es| ==>
      es[i] == if i < k then ds[i] else if i == k then Desc(d.semAdd, []) else ds[i - 1];
  }

  lemma AddressedChanged(path: seq<Semd>, ds: seq<Desc<Pcb>>, tailAddr: int, k: nat, q: seq<Pcb>)
    requires Addressed(path, ds, tailAddr) && k < |ds|
    ensures Addressed(path, ds[k := Desc(ds[k].addr, q)], tailAddr)
  {
    SameAddresses(ds, ds[k := Desc(ds[k].addr, q)]);
  }

  lemma LinkedCut(path: seq<Semd>, k: nat)
    requires k + 2 < |path| && Distinct(path) && path[k].next == path[k + 2]
    requires forall i {:trigger path[i].next} :: 0 <= i < |path| - 1 && i != k ==> path[i].next == path[i + 1]
    ensures Linked(path[..k + 1] + path[k + 2..]) && path[k + 1] !in path[..k + 1] + path[k + 2..]
  {
    var t := path[..k + 1] + path[k + 2..];
    DistinctCut(path, k + 1);
    DistinctPositions(path);
    assert forall i :: 0 <= i < |t| ==> t[i] == if i <= k then path[i] else path[i + 1];
  }

  method Splice(d: Semd, before: Semd, ghost path: seq<Semd>, ghost k: nat)
    requires Linked(path) && k < |path| - 1 && before == path[k] && d !in path
    modifies before`next, d`next
    ensures Linked(path[..k + 1] + [d] + path[k + 1..]) && before.next == d
  {
    DistinctPositions(path);
    d.next := before.next;
    before.next := d;
    LinkedInserted(path, k, d);
  }

  method Cut(before: Semd, ghost path: seq<Semd>, ghost k: nat) returns (d: Semd)
    requires Linked(path) && k + 2 < |path| && before == path[k]
    modifies before`next
    ensures Linked(path[..k + 1] + path[k + 2..]) && d == path[k + 1] && d !in path[..k + 1] + path[k + 2..]
  {
    DistinctPositions(path);
    d := before.next;
    before.next := d.next;
    LinkedCut(path, k);
  }

  /** The pool does not notice either. */
  method SpliceAside(d: Semd, before: Semd, ghost path: seq<Semd>, ghost k: nat,
                     ghost first: Semd?, ghost pool: seq<Semd>)
    requires Linked(path) && k < |path| - 1 && before == path[k] && d !in path
    requires IsPool(first, pool) && before !in pool && d !in pool
    modifies before`next, d`next
    ensures Linked(path[..k + 1] + [d] + path[k + 1..]) && before.next == d && IsPool(first, pool)
  {
    Splice(d, before, path, k);
  }

  method CutAside(before: Semd, ghost path: seq<Semd>, ghost k: nat, ghost first: Semd?, ghost pool: seq<Semd>)
    returns (d: Semd)
    requires Linked(path) && k + 2 < |path| && before == path[k]
    requires IsPool(first, pool) && before !in pool
    modifies before`next
    ensures Linked(path[..k + 1] + path[k + 2..]) && d == path[k + 1] && d !in path[..k + 1] + path[k + 2..]
    ensures IsPool(first, pool)
  {
    d := Cut(before, path, k);
  }

  lemma AddressedCut(path: seq<Semd>, ds: seq<Desc<Pcb>>, tailAddr: int, k: nat)
    requires Addressed(path, ds, tailAddr) && k < |ds|
    ensures Addressed(path[..k + 1] + path[k + 2..], ds[..k] + ds[k + 1..], tailAddr)
  {
    var es := ds[..k] + ds[k + 1..];
    CutAscends(ds, k);
    assert forall i {:trigger es[i]} :: 0 <= i < |es| ==> es[i] == if i < k then ds[i] else ds[i + 1];
  }

  /** All pcbs on some queue. */
  ghost function Members(ds: seq<Desc<Pcb>>): set<Pcb> {
    set i, p | 0 <= i < |ds| && p in ds[i].queue :: p
  }

  /** No pcb is on two queues. */
  ghost predicate Apart(ds: seq<Desc<Pcb>>) {
    ds == [] || ((forall p :: p in ds[0].queue ==> p !in Members(ds[1..])) && Apart(ds[1..]))
  }

  lemma {:induction false} ApartPairs(ds: seq<Desc<Pcb>>)
    ensures Apart(ds) <==> forall i, j, p {:trigger p in ds[i].queue, p in ds[j].queue} ::
                             0 <= i < j < |ds| && p in ds[i].queue ==> p !in ds[j].queue
  {
    if ds != [] {
      var t := ds[1..];
      ApartPairs(t);
      assert forall i :: 0 <= i < |t| ==> t[i] == ds[i + 1];
      if Apart(ds) {
        forall i, j, p | 0 <= i < j < |ds| && p in ds[i].queue ensures p !in ds[j].queue {
          assert ds[j] == t[j - 1];
          assert i > 0 ==> ds[i] == t[i - 1];
        }
      }
    }
  }

  lemma MembersSpliced(ds: seq<Desc<Pcb>>, k: nat, a: int)
    requires k <= |ds|
    ensures var es := ds[..k] + [Desc(a, [])] + ds[k..]; Members(es) == Members(ds)
  {
    var es := ds[..k] + [Desc(a, [])] + ds[k..];
    assert forall i {:trigger es[i]} :: 0 <= i < |es| ==>
      es[i] == if i < k then ds[i] else if i == k then Desc(a, []) else ds[i - 1];
    forall p | p in Members(ds) ensures p in Members(es) {
      var i :| 0 <= i < |ds| && p in ds[i].queue;
      assert ds[i] == es[if i < k then i else i + 1];
    }
  }

  lemma ApartSpliced(ds: seq<Desc<Pcb>>, k: nat, a: int)
    requires k <= |ds| && Apart(ds)
    ensures Apart(ds[..k] + [Desc(a, [])] + ds[k..])
  {
    var es := ds[..k] + [Desc(a, [])] + ds[k..];
    assert forall i {:trigger es[i]} :: 0 <= i < |es| ==>
      es[i] == if i < k then ds[i] else if i == k then Desc(a, []) else ds[i - 1];
    ApartPairs(ds);
    ApartPairs(es);
  }

  lemma MembersCut(ds: seq<Desc<Pcb>>, k: nat)
    requires k < |ds| && ds[k].queue == []
    ensures var es := ds[..k] + ds[k + 1..]; Members(es) == Members(ds) && (Apart(ds) ==> Apart(es))
  {
    var es := ds[..k] + ds[k + 1..];
    assert forall i {:trigger es[i]} :: 0 <= i < |es| ==> es[i] == if i < k then ds[i] else ds[i + 1];
    forall p | p in Members(ds) ensures p in Members(es) {
      var i :| 0 <= i < |ds| && p in ds[i].queue;
      assert ds[i] == es[if i < k then i else i - 1];
    }
    ApartPairs(ds);
    ApartPairs(es);
  }

  /** The descriptor at place `i + 1` of the path holds queue `i`. */
  ghost predicate Holds(path: seq<Semd>, ds: seq<Desc<Pcb>>)
    requires |path| == |ds| + 2
    reads Descriptors(path)`procQ, Members(ds)`next, Members(ds)`prev
  {
    Apart(ds) && forall i {:trigger ds[i]} :: 0 <= i < |ds| ==> IsQueue(path[i + 1].procQ, ds[i].queue)
  }

  lemma HoldsInserted(path: seq<Semd>, ds: seq<Desc<Pcb>>, k: nat, d: Semd)
    requires |path| == |ds| + 2 && Holds(path, ds) && k <= |ds| && d.procQ == null
    ensures Holds(path[..k + 1] + [d] + path[k + 1..], ds[..k] + [Desc(d.semAdd, [])] + ds[k..])
    ensures Members(ds[..k] + [Desc(d.semAdd, [])] + ds[k..]) == Members(ds)
  {
    var es, path' := ds[..k] + [Desc(d.semAdd, [])] + ds[k..], path[..k + 1] + [d] + path[k + 1..];
    MembersSpliced(ds, k, d.semAdd);
    ApartSpliced(ds, k, d.semAdd);
    assert forall i {:trigger es[i]} :: 0 <= i < |es| ==>
      es[i] == if i < k then ds[i] else if i == k then Desc(d.semAdd, []) else ds[i - 1];
    assert forall i :: 0 <= i < |path'| ==>
      path'[i] == if i <= k then path[i] else if i == k + 1 then d else path[i - 1];
  }

  lemma HoldsCut(path: seq<Semd>, ds: seq<Desc<Pcb>>, k: nat)
    requires |path| == |ds| + 2 && Holds(path, ds) && k < |ds| && ds[k].queue == []
    ensures Holds(path[..k + 1] + path[k + 2..], ds[..k] + ds[k + 1..])
    ensures Members(ds[..k] + ds[k + 1..]) == Members(ds)
  {
    var es, path' := ds[..k] + ds[k + 1..], path[..k + 1] + path[k + 2..];
    MembersCut(ds, k);
    assert forall i {:trigger es[i]} :: 0 <= i < |es| ==> es[i] == if i < k then ds[i] else ds[i + 1];
    assert forall i :: 0 <= i < |path'| ==> path'[i] == if i <= k then path[i] else path[i + 1];
  }

  /** Queue `q` has no pcb of the queues other than the one at place `k`. */
  ghost predicate Clear(ds: seq<Desc<Pcb>>, k: nat, q: seq<Pcb>) {
    forall i {:trigger ds[i]} :: 0 <= i < |ds| && i != k ==> Nodes(ds[i].queue) !! Nodes(q)
  }

  lemma ApartChanged(ds: seq<Desc<Pcb>>, k: nat, a: int, q: seq<Pcb>)
    requires k < |ds| && Apart(ds) && Clear(ds, k, q)
    ensures Apart(ds[k := Desc(a, q)])
  {
    var es := ds[k := Desc(a, q)];
    ApartPairs(ds);
    forall i, j, p | 0 <= i < j < |es| && p in es[i].queue ensures p !in es[j].queue {
      if i == k {
        assert p in Nodes(q) && Nodes(ds[j].queue) !! Nodes(q);
      } else if j == k {
        assert p in Nodes(ds[i].queue) && Nodes(ds[i].queue) !! Nodes(q);
      } else {
        assert p in ds[i].queue && es[j] == ds[j];
      }
    }
    ApartPairs(es);
  }

  /** A changed queue that stays clear of the others is held like the old one. */
  lemma HoldsChanged(path: seq<Semd>, ds: seq<Desc<Pcb>>, k: nat, a: int, q: seq<Pcb>)
    requires |path| == |ds| + 2 && k < |ds| && IsQueue(path[k + 1].procQ, q) && Apart(ds) && Clear(ds, k, q)
    requires OthersHeld(path, ds, k)
    ensures Holds(path, ds[k := Desc(a, q)])
  {
    ApartChanged(ds, k, a, q);
  }

  lemma OthersApart(ds: seq<Desc<Pcb>>, k: nat)
    requires k < |ds| && Apart(ds)
    ensures Clear(ds, k, ds[k].queue)
    ensures forall i {:trigger ds[i]} :: 0 <= i < |ds| ==> Nodes(ds[i].queue) <= Members(ds)
  {
    ApartPairs(ds);
  }

  /** The queues other than the one at place `k`. */
  ghost predicate OthersHeld(path: seq<Semd>, ds: seq<Desc<Pcb>>, k: nat)
    requires |path| == |ds| + 2
    reads Descriptors(path)`procQ, Members(ds)`next, Members(ds)`prev
  {
    forall i {:trigger ds[i]} :: 0 <= i < |ds| && i != k ==> IsQueue(path[i + 1].procQ, ds[i].queue)
  }

  /** insertProcQ on the queue of the descriptor at place `k`; no other queue notices. */
  method InsertAside(d: Semd, p: Pcb, ghost path: seq<Semd>, ghost ds: seq<Desc<Pcb>>, ghost k: nat)
    requires |path| == |ds| + 2 && Distinct(path) && Holds(path, ds) && k < |ds| && d == path[k + 1]
    requires p !in Members(ds)
    modifies d`procQ, Members(ds)`next, Members(ds)`prev, p`next, p`prev
    ensures IsQueue(path[k + 1].procQ, ds[k].queue + [p]) && OthersHeld(path, ds, k)
  {
    OthersApart(ds, k);
    DistinctPositions(path);
    d.procQ := InsertProcQ(d.procQ, p, ds[k].queue);
    forall i {:trigger ds[i]} | 0 <= i < |ds| && i != k ensures IsQueue(path[i + 1].procQ, ds[i].queue) {
      assert path[i + 1] != d;
    }
  }

  method Append(d: Semd, p: Pcb, ghost path: seq<Semd>, ghost ds: seq<Desc<Pcb>>, ghost k: nat)
    requires |path| == |ds| + 2 && Distinct(path) && Holds(path, ds) && k < |ds| && d == path[k + 1]
    requires p !in Members(ds)
    modifies d`procQ, Members(ds)`next, Members(ds)`prev, p`next, p`prev
    ensures Holds(path, ds[k := Desc(ds[k].addr, ds[k].queue + [p])])
  {
    OthersApart(ds, k);
    ClearOfNew(ds, k, p);
    InsertAside(d, p, path, ds, k);
    HoldsChanged(path, ds, k, ds[k].addr, ds[k].queue + [p]);
  }

  lemma ClearOfNew(ds: seq<Desc<Pcb>>, k: nat, p: Pcb)
    requires k < |ds| && Clear(ds, k, ds[k].queue) && p !in Members(ds)
    ensures Clear(ds, k, ds[k].queue + [p])
  {
    forall i {:trigger ds[i]} | 0 <= i < |ds| && i != k ensures Nodes(ds[i].queue) !! Nodes(ds[k].queue + [p]) {
      assert p !in ds[i].queue;
    }
  }

  /** removeProcQ, likewise. */
  method RemoveAside(d: Semd, ghost path: seq<Semd>, ghost ds: seq<Desc<Pcb>>, ghost k: nat) returns (p: Pcb)
    requires |path| == |ds| + 2 && Distinct(path) && Holds(path, ds) && k < |ds| && d == path[k + 1]
    requires ds[k].queue != []
    modifies d`procQ, Members(ds)`next, Members(ds)`prev
    ensures p == ds[k].queue[0] && IsQueue(path[k + 1].procQ, ds[k].queue[1..]) && OthersHeld(path, ds, k)
  {
    OthersApart(ds, k);
    DistinctPositions(path);
    var head;
    d.procQ, head := RemoveProcQ(d.procQ, ds[k].queue);
    forall i {:trigger ds[i]} | 0 <= i < |ds| && i != k ensures IsQueue(path[i + 1].procQ, ds[i].queue) {
      assert path[i + 1] != d;
    }
    return head;
  }

  /** The head of the queue at place `k`, which then names no semaphore. */
  method TakeHead(d: Semd, ghost path: seq<Semd>, ghost ds: seq<Desc<Pcb>>, ghost k: nat) returns (p: Pcb)
    requires |path| == |ds| + 2 && Distinct(path) && Holds(path, ds) && k < |ds| && d == path[k + 1]
    requires ds[k].queue != []
    modifies d`procQ, Members(ds)`next, Members(ds)`prev, Head(ds[k].queue)`semAdd
    ensures p == ds[k].queue[0] && p.semAdd == NULL_ADDR
    ensures Holds(path, ds[k := Desc(ds[k].addr, ds[k].queue[1..])])
  {
    OthersApart(ds, k);
    assert Nodes(ds[k].queue[1..]) <= Nodes(ds[k].queue);
    Member(ds, k, 0);
    p := RemoveAside(d, path, ds, k);
    HoldsChanged(path, ds, k, ds[k].addr, ds[k].queue[1..]);
    p.semAdd := NULL_ADDR;
  }

  /** outProcQ, likewise. */
  method OutAside(d: Semd, p: Pcb, ghost path: seq<Semd>, ghost ds: seq<Desc<Pcb>>, ghost k: nat) returns (r: Pcb?)
    requires |path| == |ds| + 2 && Distinct(path) && Holds(path, ds) && k < |ds| && d == path[k + 1]
    modifies d`procQ, Members(ds)`next, Members(ds)`prev
    ensures r == (if p in ds[k].queue then p else null)
    ensures IsQueue(path[k + 1].procQ, Without(ds[k].queue, {p})) && OthersHeld(path, ds, k)
  {
    OthersApart(ds, k);
    DistinctPositions(path);
    d.procQ, r := OutProcQ(d.procQ, p, ds[k].queue);
    forall i {:trigger ds[i]} | 0 <= i < |ds| && i != k ensures IsQueue(path[i + 1].procQ, ds[i].queue) {
      assert path[i + 1] != d;
    }
  }

  method TakeOut(d: Semd, p: Pcb, ghost path: seq<Semd>, ghost ds: seq<Desc<Pcb>>, ghost k: nat) returns (r: Pcb?)
    requires |path| == |ds| + 2 && Distinct(path) && Holds(path, ds) && k < |ds| && d == path[k + 1]
    modifies d`procQ, Members(ds)`next, Members(ds)`prev
    ensures r == (if p in ds[k].queue then p else null)
    ensures Holds(path, ds[k := Desc(ds[k].addr, Without(ds[k].queue, {p}))])
  {
    OthersApart(ds, k);
    WithoutMembers(ds[k].queue, {p});
    assert Nodes(Without(ds[k].queue, {p})) <= Nodes(ds[k].queue);
    r := OutAside(d, p, path, ds, k);
    HoldsChanged(path, ds, k, ds[k].addr, Without(ds[k].queue, {p}));
  }

  class ActiveSemaphoreList {
    var head: Semd?                 // semd_h, the head dummy
    var freeHead: Semd?             // semdFree_h
    const tailAddr: int             // the address that marks the tail dummy
    ghost var path: seq<Semd>       // head dummy, active descriptors, tail dummy
    ghost var pool: seq<Semd>
    ghost var model: SemList<Pcb>
    ghost const table: set<Semd>    // semdTable

    ghost predicate Valid()
      reads `head, `freeHead, `path, `pool, `model
      reads Descriptors(path)`next, Descriptors(path)`semAdd, Descriptors(path)`procQ, Descriptors(pool)`next
      reads Members(model.descs)`next, Members(model.descs)`prev
    {
      Chained() && Whole() && Holds(path, model.descs)
    }

    /** Active list and pool are two separate chains. */
    ghost predicate Chained()
      reads `head, `freeHead, `path, `pool, `model
      reads Descriptors(path)`next, Descriptors(path)`semAdd, Descriptors(pool)`next
    {
      && Addressed(path, model.descs, tailAddr) && Linked(path) && head == path[0]
      && |pool| == model.spare && IsPool(freeHead, pool) && (forall d :: d in path ==> d !in pool)
    }

    /** Together they are the whole table. */
    ghost predicate Whole()
      reads `path, `pool
    {
      table == Descriptors(path) + Descriptors(pool)
    }

    /** traverseASL: the last descriptor before the place of `a`. The tail is recognised by
        its own address, wherever that lies among the others. */
    method TraverseAsl(a: int) returns (before: Semd, ghost k: nat)
      requires Chained()
      ensures k == Slot(model.descs, a)
      ensures before == path[Slot(model.descs, a)] && before.next == path[Slot(model.descs, a) + 1]
      ensures a != tailAddr ==> (path[k + 1].semAdd == a <==> Active(model, a))
    {
      before, k := head, 0;
      while before.next.semAdd != tailAddr && before.next.semAdd < a
        invariant k <= |model.descs| && before == path[k] && before.next == path[k + 1]
        invariant forall i :: 0 <= i < k ==> model.descs[i].addr < a
        decreases |model.descs| - k
      {
        assert model.descs[k].addr == path[k + 1].semAdd;
        before := before.next;
        k := k + 1;
      }
      ghost var s := Slot(model.descs, a);
      SlotDivides(model.descs, a);
      if k < |model.descs| {
        assert model.descs[k].addr == path[k + 1].semAdd;
        assert s <= k;
      }
      assert k <= s;
    }

    /** allocSemd */
    method AllocSemd(a: int) returns (d: Semd?)
      requires Chained()
      modifies this`freeHead, this`pool, this`model, Descriptors(pool)`next, Descriptors(pool)`semAdd
      modifies Descriptors(pool)`procQ
      ensures Chained() && path == old(path)
      ensures if old(pool) == [] then d == null && model == old(model) && pool == []
              else d == old(pool)[0] && model == old(model).(spare := old(model).spare - 1) && pool == old(pool)[1..]
      ensures d != null ==> d !in path && d !in pool && d.next == null && d.semAdd == a && d.procQ == null
    {
      if freeHead == null {
        return null;
      }
      d := freeHead;
      assert d == pool[0] && d in pool && d !in path;
      freeHead := freeHead.next;
      d.next, d.semAdd, d.procQ := null, a, null;
      pool := pool[1..];
      model := model.(spare := model.spare - 1);
    }

    /** freeSemd */
    method FreeSemd(d: Semd)
      requires Chained() && d !in path && d !in pool
      modifies this`freeHead, this`pool, this`model, d`next, d`procQ
      ensures Chained() && path == old(path) && pool == [d] + old(pool)
      ensures model == old(model).(spare := old(model).spare + 1)
    {
      d.procQ := null;
      d.next := freeHead;
      freeHead := d;
      pool := [d] + pool;
      model := model.(spare := model.spare + 1);
    }

    /** The links have changed; path and model follow. */
    ghost method Rethread(newPath: seq<Semd>, newModel: SemList<Pcb>)
      requires Addressed(newPath, newModel.descs, tailAddr) && Linked(newPath) && head == newPath[0]
      requires |pool| == newModel.spare && IsPool(freeHead, pool) && forall d :: d in newPath ==> d !in pool
      modifies this`path, this`model
      ensures Chained() && path == newPath && model == newModel
    {
      path, model := newPath, newModel;
    }

    /** Splices a descriptor with an empty queue in at place `k`. */
    method LinkIn(d: Semd, before: Semd, ghost k: nat)
      requires Chained() && k <= |model.descs| && before == path[k] && d !in path && d !in pool
      requires d.semAdd != tailAddr && k == Slot(model.descs, d.semAdd)
      requires k < |model.descs| ==> model.descs[k].addr != d.semAdd
      modifies this`path, this`model, before`next, d`next
      ensures Chained() && pool == old(pool)
      ensures model == old(model).(descs := old(model).descs[..k] + [Desc(d.semAdd, [])] + old(model).descs[k..])
      ensures path == old(path)[..k + 1] + [d] + old(path)[k + 1..] && before.next == d
    {
      ghost var longer := path[..k + 1] + [d] + path[k + 1..];
      ghost var grown := model.(descs := model.descs[..k] + [Desc(d.semAdd, [])] + model.descs[k..]);
      assert before in path;
      AddressedInserted(path, model.descs, tailAddr, k, d);
      SpliceAside(d, before, path, k, freeHead, pool);
      PathGrown(path, k + 1, d);
      Rethread(longer, grown);
    }

    /** Splices the descriptor at place `k` out. */
    method LinkOut(before: Semd, ghost k: nat) returns (d: Semd)
      requires Chained() && k < |model.descs| && before == path[k]
      modifies this`path, this`model, before`next
      ensures Chained() && pool == old(pool) && d == old(path)[k + 1] && d !in path && d !in pool
      ensures model == old(model).(descs := old(model).descs[..k] + old(model).descs[k + 1..])
      ensures path == old(path)[..k + 1] + old(path)[k + 2..]
    {
      ghost var shorter := path[..k + 1] + path[k + 2..];
      assert before in path && path[k + 1] in path;
      AddressedCut(path, model.descs, tailAddr, k);
      d := CutAside(before, path, k, freeHead, pool);
      PathShrunk(path, k + 1);
      Rethread(shorter, model.(descs := model.descs[..k] + model.descs[k + 1..]));
    }

    /** insertBlocked: true when there is neither a descriptor for `a` nor an unused one. */
    method InsertBlocked(a: int, p: Pcb) returns (failed: bool)
      requires Valid() && a != tailAddr && p !in Members(model.descs)
      modifies this`freeHead, this`pool, this`path, this`model, table`next, table`semAdd, table`procQ
      modifies Members(model.descs)`next, Members(model.descs)`prev, p`next, p`prev, p`semAdd
      ensures Valid()
      ensures failed == !CanBlock(old(model), a)
      ensures model == SemaphoreLists.InsertBlocked(old(model), a, p)
      ensures p.semAdd == if failed then old(p.semAdd) else a
    {
      failed := Enqueue(a, p);
      if !failed {
        p.semAdd := a;
      }
    }

    method Enqueue(a: int, p: Pcb) returns (failed: bool)
      requires Valid() && a != tailAddr && p !in Members(model.descs)
      modifies this`freeHead, this`pool, this`path, this`model, table`next, table`semAdd, table`procQ
      modifies Members(model.descs)`next, Members(model.descs)`prev, p`next, p`prev
      ensures Valid()
      ensures failed == !CanBlock(old(model), a)
      ensures model == SemaphoreLists.InsertBlocked(old(model), a, p)
    {
      ghost var was := model;
      var d, k := FindDescriptor(a);
      if d == null {
        return true;
      }
      assert d in path;
      InsertedInSteps(was, model, a, p);
      AppendAt(d, k, p);
      return false;
    }

    /** A queue has changed under its descriptor; the model follows. */
    ghost method Requeue(k: nat, q: seq<Pcb>)
      requires Chained() && Whole() && k < |model.descs|
      requires Holds(path, model.descs[k := Desc(model.descs[k].addr, q)])
      modifies this`model
      ensures Valid() && model == Requeued(old(model), k, q)
    {
      AddressedChanged(path, model.descs, tailAddr, k, q);
      model := Requeued(model, k, q);
    }

    /** The links of the descriptors do not notice that a queue grows. */
    method AppendAside(d: Semd, ghost k: nat, p: Pcb)
      requires Valid() && k < |model.descs| && d == path[k + 1] && p !in Members(model.descs)
      modifies d`procQ, Members(model.descs)`next, Members(model.descs)`prev, p`next, p`prev
      ensures Chained() && Holds(path, model.descs[k := Desc(model.descs[k].addr, model.descs[k].queue + [p])])
    {
      Append(d, p, path, model.descs, k);
    }

    method AppendAt(d: Semd, ghost k: nat, p: Pcb)
      requires Valid() && k < |model.descs| && d == path[k + 1] && p !in Members(model.descs)
      modifies this`model, d`procQ, Members(model.descs)`next, Members(model.descs)`prev, p`next, p`prev
      ensures Valid() && model == Requeued(old(model), k, old(model).descs[k].queue + [p])
    {
      AppendAside(d, k, p);
      Requeue(k, model.descs[k].queue + [p]);
    }

    /** The descriptor of `a`, taken from the pool if there is none. */
    method FindDescriptor(a: int) returns (d: Semd?, ghost k: nat)
      requires Valid() && a != tailAddr
      modifies this`freeHead, this`pool, this`path, this`model, table`next, table`semAdd, table`procQ
      ensures Valid() && k == Slot(old(model).descs, a)
      ensures (d == null) == !CanBlock(old(model), a)
      ensures model == WithDescriptor(old(model), a) && Members(model.descs) == Members(old(model).descs)
      ensures d != null ==> k < |model.descs| && d == path[k + 1]
    {
      var before;
      before, k := TraverseAsl(a);
      if before.next.semAdd != a {
        d := AddDescriptor(a, before, k);
        return d, k;
      }
      return before.next, k;
    }

    method AddDescriptor(a: int, before: Semd, ghost k: nat) returns (d: Semd?)
      requires Valid() && a != tailAddr && k == Slot(model.descs, a) && before == path[k] && !Active(model, a)
      modifies this`freeHead, this`pool, this`path, this`model, Descriptors(pool)`next
      modifies Descriptors(pool)`semAdd, Descriptors(pool)`procQ, before`next
      ensures Valid() && (d == null) == (old(model).spare == 0)
      ensures d == null ==> model == old(model)
      ensures d != null ==>
                && model == SemList(old(model).descs[..k] + [Desc(a, [])] + old(model).descs[k..], old(model).spare - 1)
                && d == path[k + 1]
      ensures Members(model.descs) == Members(old(model).descs)
    {
      ghost var path0, pool0, ds := path, pool, model.descs;
      d := NewDescriptor(a, before, k);
      if d != null {
        TableMoved(path0, pool0, k);
        HoldsInserted(path0, ds, k, d);
      }
    }

    /** The queues do not notice that a descriptor leaves the pool. */
    method AllocAside(a: int) returns (d: Semd?)
      requires Chained() && Holds(path, model.descs)
      modifies this`freeHead, this`pool, this`model, Descriptors(pool)`next, Descriptors(pool)`semAdd
      modifies Descriptors(pool)`procQ
      ensures Chained() && Holds(path, model.descs) && path == old(path)
      ensures if old(pool) == [] then d == null && model == old(model) && pool == []
              else d == old(pool)[0] && model == old(model).(spare := old(model).spare - 1) && pool == old(pool)[1..]
      ensures d != null ==> d !in path && d !in pool && d.next == null && d.semAdd == a && d.procQ == null
    {
      d := AllocSemd(a);
    }

    /** The queues do not notice that a descriptor is linked in. */
    method LinkInAside(d: Semd, before: Semd, ghost k: nat)
      requires Chained() && Holds(path, model.descs) && k <= |model.descs| && before == path[k] && d !in path
      requires d !in pool
      requires d.semAdd != tailAddr && k == Slot(model.descs, d.semAdd)
      requires k < |model.descs| ==> model.descs[k].addr != d.semAdd
      modifies this`path, this`model, before`next, d`next
      ensures Chained() && Holds(old(path), old(model).descs) && pool == old(pool)
      ensures model == old(model).(descs := old(model).descs[..k] + [Desc(d.semAdd, [])] + old(model).descs[k..])
      ensures path == old(path)[..k + 1] + [d] + old(path)[k + 1..]
    {
      LinkIn(d, before, k);
    }

    /** A new descriptor for `a`, with an empty queue, after `before`; the queues of the other
        descriptors do not notice. */
    method NewDescriptor(a: int, before: Semd, ghost k: nat) returns (d: Semd?)
      requires Valid() && a != tailAddr && k == Slot(model.descs, a) && before == path[k]
      requires k < |model.descs| ==> model.descs[k].addr != a
      modifies this`freeHead, this`pool, this`path, this`model, Descriptors(pool)`next
      modifies Descriptors(pool)`semAdd, Descriptors(pool)`procQ, before`next
      ensures Chained() && Holds(old(path), old(model).descs) && (d == null) == (old(pool) == [])
      ensures d == null ==> model == old(model) && path == old(path) && pool == old(pool)
      ensures d != null ==>
                && d == old(pool)[0] && pool == old(pool)[1..]
                && model == SemList(old(model).descs[..k] + [Desc(a, [])] + old(model).descs[k..], old(model).spare - 1)
                && d.procQ == null && d.semAdd == a
                && path == old(path)[..k + 1] + [d] + old(path)[k + 1..]
    {
      d := AllocAside(a);
      if d != null {
        LinkInAside(d, before, k);
      }
    }

    /** removeBlocked: the head of the queue of `a`, or null. A descriptor whose queue this
        empties goes back to the pool. */
    method RemoveBlocked(a: int) returns (p: Pcb?)
      requires Valid() && a != tailAddr
      modifies this`freeHead, this`pool, this`path, this`model, table`next, table`procQ
      modifies Members(model.descs)`next, Members(model.descs)`prev, Head(QueueOf(model, a))`semAdd
      ensures Valid()
      ensures p == (if QueueOf(old(model), a) == [] then null else QueueOf(old(model), a)[0])
      ensures model == SemaphoreLists.RemoveBlocked(old(model), a)
      ensures p != null ==> p.semAdd == NULL_ADDR
    {
      var before, k := TraverseAsl(a);
      if before.next.semAdd != a {
        return null;
      }
      RemovedInSteps(model, a);
      p := TakeAndTidy(before, k);
    }

    /** The head of the queue at place `k` leaves, with its descriptor if it was the last. */
    method TakeAndTidy(before: Semd, ghost k: nat) returns (p: Pcb?)
      requires Valid() && k < |model.descs| && before == path[k]
      modifies this`freeHead, this`pool, this`path, this`model, table`next, table`procQ
      modifies Members(model.descs)`next, Members(model.descs)`prev, Head(model.descs[k].queue)`semAdd
      ensures Valid()
      ensures model == HeadTaken(old(model), k)
      ensures p == (if old(model).descs[k].queue == [] then null else old(model).descs[k].queue[0])
      ensures p != null ==> p.semAdd == NULL_ADDR
    {
      assert before.next == path[k + 1] && before.next in path;
      assert IsQueue(before.next.procQ, model.descs[k].queue);
      if before.next.procQ == null {
        return null;
      }
      p := TakeHeadAt(before.next, k);
      DropIfEmpty(before, k);
    }

    method DropIfEmpty(before: Semd, ghost k: nat)
      requires Valid() && k < |model.descs| && before == path[k]
      modifies this`freeHead, this`pool, this`path, this`model, table`next, table`procQ
      ensures Valid()
      ensures model == if old(model).descs[k].queue != [] then old(model)
                       else SemList(old(model).descs[..k] + old(model).descs[k + 1..], old(model).spare + 1)
    {
      assert IsQueue(before.next.procQ, model.descs[k].queue);
      if before.next.procQ == null {
        DropDescriptor(before, k);
      }
    }

    /** The links of the descriptors do not notice that a queue loses its head. */
    method TakeHeadAside(d: Semd, ghost k: nat) returns (p: Pcb)
      requires Valid() && k < |model.descs| && d == path[k + 1] && model.descs[k].queue != []
      modifies d`procQ, Members(model.descs)`next, Members(model.descs)`prev, Head(model.descs[k].queue)`semAdd
      ensures p == model.descs[k].queue[0] && p.semAdd == NULL_ADDR
      ensures Chained() && Holds(path, model.descs[k := Desc(model.descs[k].addr, model.descs[k].queue[1..])])
    {
      p := TakeHead(d, path, model.descs, k);
    }

    method TakeHeadAt(d: Semd, ghost k: nat) returns (p: Pcb)
      requires Valid() && k < |model.descs| && d == path[k + 1] && model.descs[k].queue != []
      modifies this`model, d`procQ
      modifies Members(model.descs)`next, Members(model.descs)`prev, Head(model.descs[k].queue)`semAdd
      ensures Valid() && model == Requeued(old(model), k, old(model).descs[k].queue[1..])
      ensures p == old(model).descs[k].queue[0] && p.semAdd == NULL_ADDR
    {
      p := TakeHeadAside(d, k);
      Requeue(k, model.descs[k].queue[1..]);
    }

    /** The empty descriptor at place `k` leaves the list for the pool. */
    method DropDescriptor(before: Semd, ghost k: nat)
      requires Valid() && k < |model.descs| && before == path[k] && model.descs[k].queue == []
      modifies this`freeHead, this`pool, this`path, this`model, table`next, table`procQ
      ensures Valid()
      ensures model == SemList(old(model).descs[..k] + old(model).descs[k + 1..], old(model).spare + 1)
    {
      HoldsCut(path, model.descs, k);
      TableCut(path, pool, k + 1);
      var d := LinkOut(before, k);
      FreeAside(d);
    }

    method FreeAside(d: Semd)
      requires Chained() && Holds(path, model.descs) && d !in path && d !in pool
      modifies this`freeHead, this`pool, this`model, d`next, d`procQ
      ensures Chained() && Holds(path, model.descs) && path == old(path) && pool == [d] + old(pool)
      ensures model == old(model).(spare := old(model).spare + 1)
    {
      FreeSemd(d);
    }

    /** outBlocked: `p` leaves the queue its pcb names, if it is there. */
    method OutBlocked(p: Pcb) returns (r: Pcb?)
      requires Valid() && p.semAdd != tailAddr
      modifies this`model, table`procQ, Members(model.descs)`next, Members(model.descs)`prev
      ensures Valid()
      ensures model == SemaphoreLists.OutBlocked(old(model), p.semAdd, p)
      ensures r == (if p in QueueOf(old(model), p.semAdd) then p else null)
    {
      var before, k := TraverseAsl(p.semAdd);
      if before.next.semAdd != p.semAdd {
        return null;
      }
      OutInOneStep(model, p.semAdd, p);
      r := TakeOutAfter(before, p, k);
    }

    method TakeOutAfter(before: Semd, p: Pcb, ghost k: nat) returns (r: Pcb?)
      requires Valid() && k < |model.descs| && before == path[k]
      modifies this`model, table`procQ, Members(model.descs)`next, Members(model.descs)`prev
      ensures Valid() && path == old(path) && pool == old(pool)
      ensures r == (if p in old(model).descs[k].queue then p else null)
      ensures model == Outed(old(model), k, p)
    {
      assert before.next == path[k + 1] && before.next in path;
      if before.next.procQ == null {
        assert IsQueue(before.next.procQ, model.descs[k].queue);
        return null;
      }
      r := TakeOutAt(before.next, p, k);
    }

    /** The links of the descriptors do not notice that a queue loses a pcb. */
    method TakeOutAside(d: Semd, p: Pcb, ghost k: nat) returns (r: Pcb?)
      requires Valid() && k < |model.descs| && d == path[k + 1]
      modifies d`procQ, Members(model.descs)`next, Members(model.descs)`prev
      ensures r == (if p in model.descs[k].queue then p else null)
      ensures Chained() && Holds(path, model.descs[k := Desc(model.descs[k].addr, Without(model.descs[k].queue, {p}))])
    {
      r := TakeOut(d, p, path, model.descs, k);
    }

    method TakeOutAt(d: Semd, p: Pcb, ghost k: nat) returns (r: Pcb?)
      requires Valid() && k < |model.descs| && d == path[k + 1]
      modifies this`model, d`procQ, Members(model.descs)`next, Members(model.descs)`prev
      ensures Valid() && model == Requeued(old(model), k, Without(old(model).descs[k].queue, {p}))
      ensures r == (if p in old(model).descs[k].queue then p else null)
    {
      r := TakeOutAside(d, p, k);
      Requeue(k, Without(model.descs[k].queue, {p}));
    }

    method HeadBlocked(a: int) returns (p: Pcb?)
      requires Valid() && a != tailAddr
      ensures p == (if QueueOf(model, a) == [] then null else QueueOf(model, a)[0])
    {
      var before, k := TraverseAsl(a);
      if before.next.semAdd != a || before.next.procQ == null {
        assert Active(model, a) ==> IsQueue(before.next.procQ, model.descs[k].queue);
        return null;
      }
      assert IsQueue(before.next.procQ, model.descs[k].queue);
      return before.next.procQ.next;
    }

    /** initASL: two descriptors of the table become the dummies, the others the pool. */
    constructor (semdTable: seq<Semd>, tailAddr: int)
      requires |semdTable| >= 2 && Distinct(semdTable)
      modifies Descriptors(semdTable)
      ensures Valid() && table == Descriptors(semdTable)
      ensures model == SemList([], |semdTable| - 2) && this.tailAddr == tailAddr
    {
      this.tailAddr := tailAddr;
      table := Descriptors(semdTable);
      var first, last, rest := Prepare(semdTable, tailAddr);
      head, freeHead := first, rest;
      path, pool, model := [first, last], semdTable[2..], SemList([], |semdTable| - 2);
    }
  }

  /** The table as one chain, then its first two descriptors as a list of two dummies. */
  method Prepare(table: seq<Semd>, tailAddr: int) returns (first: Semd, last: Semd, rest: Semd?)
    requires |table| >= 2 && Distinct(table)
    modifies Descriptors(table)
    ensures table == [first, last] + table[2..] && first !in table[2..] && last !in table[2..]
    ensures Linked([first, last]) && Addressed([first, last], [], tailAddr) && Holds([first, last], [])
    ensures Linked(table[2..]) && rest == (if |table| == 2 then null else table[2])
    ensures |table| > 2 ==> table[|table| - 1].next == null
  {
    ChainUp(table);
    first, last := table[0], table[1];
    rest := last.next;
    assert table == [first, last] + table[2..];
    DistinctPositions(table);
    MakeDummies(first, last, tailAddr, table[2..]);
  }

  method MakeDummies(first: Semd, last: Semd, tailAddr: int, ghost rest: seq<Semd>)
    requires first != last && first !in rest && last !in rest && Linked(rest)
    modifies first, last
    ensures Linked(rest) && Linked([first, last]) && Addressed([first, last], [], tailAddr) && Holds([first, last], [])
    ensures rest != [] ==> rest[|rest| - 1].next == old(rest[|rest| - 1].next)
  {
    first.next, first.semAdd, first.procQ := last, 0, null;
    last.next, last.semAdd, last.procQ := null, tailAddr, null;
  }

  method ChainUp(table: seq<Semd>)
    requires |table| >= 2 && Distinct(table)
    modifies Descriptors(table)`next
    ensures table[|table| - 1].next == null && Linked(table[2..])
    ensures table[1].next == if |table| > 2 then table[2] else null
  {
    DistinctPositions(table);
    for i := 0 to |table| - 1
      invariant forall j {:trigger table[j].next} :: 0 <= j < i ==> table[j].next == table[j + 1]
    {
      table[i].next := table[i + 1];
    }
    table[|table| - 1].next := null;
    assert Distinct(table[1..]) && table[1..][1..] == table[2..];
    forall i {:trigger table[2..][i].next} | 0 <= i < |table| - 3 ensures table[2..][i].next == table[2..][i + 1] {
      assert table[2..][i] == table[i + 2];
    }
  }

  lemma PathGrown(path: seq<Semd>, k: nat, d: Semd)
    requires k <= |path|
    ensures forall x :: x in path[..k] + [d] + path[k..] <==> x in path || x == d
  {
    assert path == path[..k] + path[k..];
  }

  lemma PathShrunk(path: seq<Semd>, k: nat)
    requires k < |path|
    ensures forall x :: x in path[..k] + path[k + 1..] ==> x in path
  {
  }

  lemma TableMoved(path: seq<Semd>, pool: seq<Semd>, k: nat)
    requires k < |path| && pool != []
    ensures Descriptors(path[..k + 1] + [pool[0]] + path[k + 1..]) + Descriptors(pool[1..])
         == Descriptors(path) + Descriptors(pool)
  {
    assert path == path[..k + 1] + path[k + 1..] && pool == [pool[0]] + pool[1..];
  }

  lemma TableCut(path: seq<Semd>, pool: seq<Semd>, k: nat)
    requires k < |path|
    ensures Descriptors(path[..k] + path[k + 1..]) + Descriptors([path[k]] + pool)
         == Descriptors(path) + Descriptors(pool)
  {
    assert path == path[..k] + [path[k]] + path[k + 1..];
  }

  /** `l` with the queue at place `k` replaced. */
  function Requeued(l: SemList<Pcb>, k: nat, q: seq<Pcb>): SemList<Pcb>
    requires k < |l.descs|
  {
    l.(descs := l.descs[k := Desc(l.descs[k].addr, q)])
  }

  /** `l` after the queue at place `k` lost its head. */
  function HeadTaken(l: SemList<Pcb>, k: nat): SemList<Pcb>
    requires k < |l.descs|
  {
    var d := l.descs[k];
    if d.queue == [] then l
    else if |d.queue| == 1 then SemList(l.descs[..k] + l.descs[k + 1..], l.spare + 1)
    else l.(descs := l.descs[k := Desc(d.addr, d.queue[1..])])
  }

  lemma RemovedInSteps(l: SemList<Pcb>, a: int)
    requires Active(l, a)
    ensures HeadTaken(l, Slot(l.descs, a)) == SemaphoreLists.RemoveBlocked(l, a)
  {
  }

  /** `l` after `p` left the queue at place `k`. */
  function Outed(l: SemList<Pcb>, k: nat, p: Pcb): SemList<Pcb>
    requires k < |l.descs|
  {
    l.(descs := l.descs[k := Desc(l.descs[k].addr, Without(l.descs[k].queue, {p}))])
  }

  lemma OutInOneStep(l: SemList<Pcb>, a: int, p: Pcb)
    requires Active(l, a)
    ensures Outed(l, Slot(l.descs, a), p) == SemaphoreLists.OutBlocked(l, a, p)
  {
    var k := Slot(l.descs, a);
    if p !in l.descs[k].queue {
      WithoutStrangers(l.descs[k].queue, {p});
      assert l.descs[k := l.descs[k]] == l.descs;
    }
  }

  lemma Member(ds: seq<Desc<Pcb>>, i: nat, j: nat)
    requires i < |ds| && j < |ds[i].queue|
    ensures ds[i].queue[j] in Members(ds)
  {
    assert ds[i].queue[j] in ds[i].queue;
  }

  function WithDescriptor(l: SemList<Pcb>, a: int): SemList<Pcb> {
    var k := Slot(l.descs, a);
    if !Active(l, a) && l.spare > 0 then SemList(l.descs[..k] + [Desc(a, [])] + l.descs[k..], l.spare - 1) else l
  }

  lemma InsertedInSteps(l: SemList<Pcb>, m: SemList<Pcb>, a: int, p: Pcb)
    requires CanBlock(l, a) && m == WithDescriptor(l, a)
    ensures var k := Slot(l.descs, a);
            k < |m.descs| && m.descs[k].addr == a
            && m.(descs := m.descs[k := Desc(a, m.descs[k].queue + [p])]) == SemaphoreLists.InsertBlocked(l, a, p)
  {
    var k := Slot(l.descs, a);
    if !Active(l, a) {
      assert m.descs[k].queue + [p] == [p];
      assert m.descs[k := Desc(a, [p])] == l.descs[..k] + [Desc(a, [p])] + l.descs[k..];
    }
  }
}
