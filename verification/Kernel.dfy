/** The nucleus as the code runs it: global variables and one heap of pcbs and semaphore
    descriptors, updated in place by the system-call and interrupt handlers
    (phase2/exceptions.c, phase2/interrupts.c, phase2/scheduler.c, phase2/initial.c). Each
    handler is one atomic step that ends in the scheduler or in a return to the interrupted
    process; `state` is the value that the variables and links stand for. */
module Kernels {
  import opened Sequences
  import opened SemaphoreLists
  import opened NucleusState
  import opened Termination
  import opened ProcessQueues
  import opened ActiveSemaphores
  import opened Pointers
  import opened KernelParts
  import opened Contexts

  class Kernel {
    const table: seq<Pcb>          // MAXPROC_pcbs
    const pool: PcbPool            // pcbFree_h
    const asl: ActiveSemaphoreList
    var readyQ: Pcb?
    var currentP: Pcb?
    var words: map<int, int>       // the integers that semaphore addresses point to
    var processCount: int
    var softBlockCount: int
    ghost var state: Nucleus

    ghost function Repr(): set<object> {
      {this, pool, asl} + Nodes(table) + asl.table
    }

    /** What is saved of each process. */
    ghost function Saved(): (saved: Contexts)
      requires |table| == MAXPROC
      reads Nodes(table)`cpu, Nodes(table)`time, Nodes(table)`support
      ensures Total(saved)
    {
      ContextsOf(table)
    }

    /** The variables and the links are those of `state`. */
    ghost predicate Valid()
      reads Repr()
    {
      && IsTable(table) && state in Meanings(readyQ) && words == state.sem
      && processCount == state.processCount && softBlockCount == state.softBlock
      && currentP == Ref(table, state.current)
    }

    /** The states that the links stand for when `tail` is the tail of the ready queue. */
    ghost function Meanings(tail: Pcb?): iset<Nucleus>
      reads pool, asl, asl.table, Nodes(table)`next, Nodes(table)`prev
      reads Nodes(table)`child, Nodes(table)`parent, Nodes(table)`nextSib, Nodes(table)`prevSib, Nodes(table)`semAdd
    {
      iset s | forall k: bool {:trigger Key(k)} :: Key(k) ==> Means(tail, s)
    }

    lemma Unfold(tail: Pcb?, s: Nucleus)
      requires s in Meanings(tail)
      ensures Means(tail, s)
    {
      assert Key(true);
    }

    lemma Fold(tail: Pcb?, s: Nucleus)
      requires Means(tail, s)
      ensures s in Meanings(tail)
    {
    }

    ghost predicate Means(tail: Pcb?, s: Nucleus)
      reads pool, asl, asl.table, Nodes(table)`next, Nodes(table)`prev
      reads Nodes(table)`child, Nodes(table)`parent, Nodes(table)`nextSib, Nodes(table)`prevSib, Nodes(table)`semAdd
    {
      && IsTable(table) && Apart(s) && IsQueue(tail, At(table, s.ready))
      && ListsMean(s.free, s.blocked) && TreeMeans(s.free, s.procs)
    }

    /** Nobody is in two queues, and the mark of the semaphore list is no semaphore. */
    ghost predicate Apart(s: Nucleus) {
      Separate(s) && asl.tailAddr !in s.sem && asl.tailAddr != NULL_ADDR
    }

    ghost predicate ListsMean(free: seq<Pid>, blocked: SemList<Pid>)
      requires |table| == MAXPROC
      reads pool, asl, asl.table, Nodes(table)`next, Nodes(table)`prev
    {
      && pool.free == At(table, free) && pool.Valid()
      && asl.model == AtAll(table, blocked) && asl.Whole() && asl.Valid()
    }

    ghost predicate TreeMeans(free: seq<Pid>, procs: Table)
      requires |table| == MAXPROC
      reads Nodes(table)`child, Nodes(table)`parent, Nodes(table)`nextSib, Nodes(table)`prevSib, Nodes(table)`semAdd
    {
      IsTree(table, free, procs) && Names(table, free, procs)
    }

    /** The ready queue has changed under its tail pointer; the state follows. */
    method Settle(tail: Pcb?, ghost s: Nucleus)
      requires s in Meanings(tail)
      modifies `readyQ, `state
      ensures state in Meanings(readyQ) && state == s
    {
      readyQ, state := tail, s;
    }

    // ---- the operations of phase 1, on the one heap

    /** insertProcQ; the other lists and the tree do not notice. */
    method InsertAside(tp: Pcb?, p: Pcb, ghost q: seq<Pcb>, ghost s: Nucleus) returns (tail: Pcb?)
      requires |table| == MAXPROC && IsQueue(tp, q) && p !in q && Nodes(q) + {p} <= Nodes(table)
      requires ListsMean(s.free, s.blocked) && TreeMeans(s.free, s.procs)
      requires Nodes(q) + {p} !! Nodes(pool.free) && Nodes(q) + {p} !! Members(asl.model.descs)
      modifies Nodes(table)`next, Nodes(table)`prev
      ensures IsQueue(tail, q + [p]) && ListsMean(s.free, s.blocked) && TreeMeans(s.free, s.procs)
    {
      tail := InsertProcQ(tp, p, q);
    }

    method InsertReady(p: Pcb, ghost i: Pid) returns (tail: Pcb?)
      requires IsTable(table) && state in Meanings(readyQ) && p == table[i] && Stands(state, i) == 0
      modifies Nodes(table)`next, Nodes(table)`prev
      ensures state.(ready := state.ready + [i]) in Meanings(tail)
    {
      Unfold(readyQ, state);
      SeparateIsDisjoint(table, state);
      OneOfThree(table, state, i);
      AtAppend(table, state.ready, i);
      ReadyMore(state, i);
      tail := InsertAside(readyQ, p, At(table, state.ready), state);
      Fold(tail, state.(ready := state.ready + [i]));
    }

    /** insertProcQ on the ready queue. */
    method Enready(p: Pcb, ghost i: Pid)
      requires Valid() && p == table[i] && Stands(state, i) == 0
      modifies `readyQ, `state, Nodes(table)`next, Nodes(table)`prev
      ensures Valid() && state == old(state).(ready := old(state).ready + [i])
      ensures Saved() == old(Saved())
    {
      ghost var t := state.(ready := state.ready + [i]);
      var tail := InsertReady(p, i);
      Settle(tail, t);
    }

    /** outProcQ, likewise. */
    method OutAside(tp: Pcb?, p: Pcb, ghost q: seq<Pcb>, ghost s: Nucleus) returns (tail: Pcb?)
      requires |table| == MAXPROC && IsQueue(tp, q) && Nodes(q) <= Nodes(table)
      requires ListsMean(s.free, s.blocked) && TreeMeans(s.free, s.procs)
      requires Nodes(q) !! Nodes(pool.free) && Nodes(q) !! Members(asl.model.descs)
      modifies Nodes(table)`next, Nodes(table)`prev
      ensures IsQueue(tail, Without(q, {p})) && ListsMean(s.free, s.blocked) && TreeMeans(s.free, s.procs)
    {
      var removed;
      tail, removed := OutProcQ(tp, p, q);
    }

    method OutReadyLinks(p: Pcb, ghost i: Pid) returns (tail: Pcb?)
      requires IsTable(table) && state in Meanings(readyQ) && p == table[i]
      modifies Nodes(table)`next, Nodes(table)`prev
      ensures state.(ready := Without(state.ready, {i})) in Meanings(tail)
    {
      Unfold(readyQ, state);
      SeparateIsDisjoint(table, state);
      AtWithout(table, state.ready, i);
      ReadyWithout(state, i);
      tail := OutAside(readyQ, p, At(table, state.ready), state);
      Fold(tail, state.(ready := Without(state.ready, {i})));
    }

    /** outProcQ on the ready queue. */
    method OutReady(p: Pcb, ghost i: Pid)
      requires Valid() && p == table[i]
      modifies `readyQ, `state, Nodes(table)`next, Nodes(table)`prev
      ensures Valid() && state == old(state).(ready := Without(old(state).ready, {i}))
    {
      ghost var t := state.(ready := Without(state.ready, {i}));
      var tail := OutReadyLinks(p, i);
      Settle(tail, t);
    }

    /** removeProcQ, likewise. */
    method RemoveAside(tp: Pcb?, ghost q: seq<Pcb>, ghost s: Nucleus) returns (tail: Pcb?, head: Pcb?)
      requires |table| == MAXPROC && IsQueue(tp, q) && Nodes(q) <= Nodes(table)
      requires ListsMean(s.free, s.blocked) && TreeMeans(s.free, s.procs)
      requires Nodes(q) !! Nodes(pool.free) && Nodes(q) !! Members(asl.model.descs)
      modifies Nodes(table)`next, Nodes(table)`prev
      ensures head == if q == [] then null else q[0]
      ensures IsQueue(tail, if q == [] then [] else q[1..])
      ensures ListsMean(s.free, s.blocked) && TreeMeans(s.free, s.procs)
    {
      tail, head := RemoveProcQ(tp, q);
    }

    method RemoveReady() returns (tail: Pcb?, head: Pcb?)
      requires IsTable(table) && state in Meanings(readyQ)
      modifies Nodes(table)`next, Nodes(table)`prev
      ensures Schedule(state) in Meanings(tail) && head == Ref(table, Schedule(state).current)
    {
      Unfold(readyQ, state);
      SeparateIsDisjoint(table, state);
      Scheduled(table, state);
      tail, head := RemoveAside(readyQ, At(table, state.ready), state);
      Fold(tail, Schedule(state));
    }

    /** removeProcQ on the ready queue: its head, if any, is the running process. */
    method Dequeue()
      requires Valid()
      modifies `readyQ, `currentP, `state, Nodes(table)`next, Nodes(table)`prev
      ensures Valid() && state == Schedule(old(state))
    {
      ghost var t := Schedule(state);
      var tail, head := RemoveReady();
      Settle(tail, t);
      currentP := head;
    }

    /** allocPcb: the ready queue does not notice. */
    method AllocQueued(ghost q: seq<Pcb>) returns (n: Pcb?)
      requires IsQueue(readyQ, q) && pool.Valid() && Nodes(pool.free) !! Nodes(q)
      modifies pool, Head(pool.free)
      ensures IsQueue(readyQ, q) && pool.Valid()
      ensures if old(pool.free) == [] then n == null && pool.free == []
              else n == old(pool.free)[0] && pool.free == old(pool.free)[1..] && n.Blank()
    {
      n := pool.AllocPcb();
    }

    /** Nor does the tree of the others. */
    method AllocLiving(ghost q: seq<Pcb>, ghost s: Nucleus) returns (n: Pcb?)
      requires |table| == MAXPROC && IsQueue(readyQ, q) && pool.Valid() && Nodes(pool.free) !! Nodes(q)
      requires LiveTree(table, s.free, s.procs) && LivePcbs(table, s.free, s.procs) !! Nodes(pool.free)
      modifies pool, Head(pool.free)
      ensures IsQueue(readyQ, q) && pool.Valid() && LiveTree(table, s.free, s.procs)
      ensures if old(pool.free) == [] then n == null && pool.free == []
              else n == old(pool.free)[0] && pool.free == old(pool.free)[1..] && n.Blank()
    {
      n := AllocQueued(q);
    }

    /** Nor does the semaphore list. */
    method AllocApart(ghost q: seq<Pcb>, ghost s: Nucleus) returns (n: Pcb?)
      requires |table| == MAXPROC && IsQueue(readyQ, q) && pool.Valid() && asl.Valid()
      requires Nodes(pool.free) !! Nodes(q) && Nodes(pool.free) !! Members(asl.model.descs)
      requires LiveTree(table, s.free, s.procs) && LivePcbs(table, s.free, s.procs) !! Nodes(pool.free)
      modifies pool, Head(pool.free)
      ensures IsQueue(readyQ, q) && pool.Valid() && asl.Valid() && LiveTree(table, s.free, s.procs)
      ensures if old(pool.free) == [] then n == null && pool.free == []
              else n == old(pool.free)[0] && pool.free == old(pool.free)[1..] && n.Blank()
    {
      n := AllocLiving(q, s);
    }

    method AllocAside(ghost s: Nucleus) returns (n: Pcb?)
      requires IsTable(table) && IsQueue(readyQ, At(table, s.ready)) && Disjoint(table, s)
      requires ListsMean(s.free, s.blocked) && TreeMeans(s.free, s.procs)
      modifies pool, Head(pool.free)
      ensures IsQueue(readyQ, At(table, s.ready)) && pool.Valid() && asl.Valid() && TreeMeans(s.free, s.procs)
      ensures if s.free == [] then n == null && pool.free == []
              else n == table[s.free[0]] && pool.free == At(table, s.free)[1..] && n.Blank()
    {
      LiveApart(table, s.free, s.procs);
      TreeLives(table, s.free, s.procs);
      n := AllocApart(At(table, s.ready), s);
      LiveTreeIsTree(table, s.free, s.procs);
    }

    method AllocFirst() returns (n: Pcb?)
      requires IsTable(table) && state in Meanings(readyQ)
      modifies pool, Head(pool.free)
      ensures if state.free == [] then n == null && state in Meanings(readyQ)
              else n == table[state.free[0]] && n.Blank() && Allocated(state) in Meanings(readyQ)
    {
      Unfold(readyQ, state);
      SeparateIsDisjoint(table, state);
      n := AllocAside(state);
      if n != null {
        AtTail(table, state.free);
        FreeLess(state);
        MoreTree(table, state.free, state.procs);
        Fold(readyQ, Allocated(state));
      } else {
        Fold(readyQ, state);
      }
    }

    /** allocPcb */
    method AllocPcb() returns (n: Pcb?)
      requires Valid()
      modifies `readyQ, `state, pool, Head(pool.free)
      ensures Valid()
      ensures if old(state).free == [] then n == null && state == old(state) && Saved() == old(Saved())
              else n == table[old(state).free[0]] && n.Blank() && state == Allocated(old(state))
                   && Saved() == old(Saved())[old(state).free[0] := BLANK]
    {
      ghost var t := if state.free == [] then state else Allocated(state);
      FreeHeads();
      n := AllocFirst();
      Settle(readyQ, t);
    }

    lemma FreeHeads()
      requires Valid()
      ensures if state.free == [] then Head(pool.free) == {} else Head(pool.free) == {table[state.free[0]]}
      ensures state.free != [] ==> forall p: Pid :: table[p] == table[state.free[0]] ==> p == state.free[0]
    {
      Unfold(readyQ, state);
      if state.free != [] { DifferentFrom(table, state.free[0]); }
    }

    /** freePcb: queues, semaphore list and tree do not notice. */
    method FreeAside(p: Pcb, ghost q: seq<Pcb>, ghost free: seq<Pid>, ghost procs: Table)
      requires |table| == MAXPROC && IsQueue(readyQ, q) && pool.Valid() && asl.Valid() && TreeMeans(free, procs)
      requires p in table && p !in pool.free && p !in q && p !in Members(asl.model.descs)
      modifies pool, Nodes(table)`next
      ensures IsQueue(readyQ, q) && pool.Valid() && asl.Valid() && TreeMeans(free, procs)
      ensures pool.free == [p] + old(pool.free)
    {
      pool.FreePcb(p);
    }

    lemma BeforeFree(i: Pid, s: Nucleus)
      requires IsTable(table) && s in Meanings(readyQ) && Stands(s, i) == 0 && s.procs[i].parent == None
      ensures table[i] !in pool.free && table[i] !in At(table, s.ready) && table[i] !in Members(asl.model.descs)
      ensures TreeMeans([i] + s.free, s.procs)
    {
      Unfold(readyQ, s);
      CountOfMember(s.free, i);
      assert IsChildOf(table, s.free, i, s.procs[i]);
      OneOfThree(table, s, i);
      LessTree(table, s.free, s.procs, i);
    }

    method FreeListed(p: Pcb, ghost i: Pid, ghost s: Nucleus)
      requires IsTable(table) && s in Meanings(readyQ) && p == table[i] && Stands(s, i) == 0
      requires s.procs[i].parent == None
      modifies pool, Nodes(table)`next
      ensures IsQueue(readyQ, At(table, s.ready)) && asl.Valid() && asl.model == AtAll(table, s.blocked)
      ensures pool.Valid() && pool.free == At(table, [i] + s.free) && TreeMeans([i] + s.free, s.procs)
    {
      Unfold(readyQ, s);
      BeforeFree(i, s);
      AtPush(table, s.free, i);
      FreeAside(p, At(table, s.ready), [i] + s.free, s.procs);
    }

    method FreeLast(p: Pcb, ghost i: Pid)
      requires IsTable(table) && state in Meanings(readyQ) && p == table[i] && Stands(state, i) == 0
      requires state.procs[i].parent == None
      modifies pool, Nodes(table)`next
      ensures state.(free := [i] + state.free) in Meanings(readyQ)
    {
      Unfold(readyQ, state);
      FreeMore(state, i);
      FreeListed(p, i, state);
      Fold(readyQ, state.(free := [i] + state.free));
    }

    /** freePcb */
    method FreePcb(p: Pcb, ghost i: Pid)
      requires Valid() && p == table[i] && Stands(state, i) == 0 && state.procs[i].parent == None
      modifies `readyQ, `state, pool, Nodes(table)`next
      ensures Valid() && state == old(state).(free := [i] + old(state).free)
    {
      ghost var t := state.(free := [i] + state.free);
      FreeLast(p, i);
      Settle(readyQ, t);
    }

    // ---- the process tree

    /** removeChild; the other families do not notice. */
    method TakeKid(p: Pcb, ghost i: Pid, ghost free: seq<Pid>, ghost procs: Table) returns (c: Pcb?)
      requires IsTable(table) && p == table[i] && i !in free && IsTree(table, free, procs)
      modifies Nodes(table)`child, Nodes(table)`nextSib, Nodes(table)`prevSib, Nodes(table)`parent
      ensures OtherFamilies(table, free, procs, i)
      ensures IsFamily(p, if procs[i].kids == [] then [] else At(table, procs[i].kids)[1..])
      ensures c == if procs[i].kids == [] then null else table[procs[i].kids[0]]
      ensures forall x: Pid :: x !in free ==>
                table[x].parent == if procs[i].kids != [] && x == procs[i].kids[0] then null else old(table[x].parent)
    {
      ghost var kids := procs[i].kids;
      assert IsChildOf(table, free, i, procs[i]);
      KinApart(table, free, procs, i);
      if kids != [] { DifferentFrom(table, kids[0]); }
      c := ProcessQueues.RemoveChild(p, At(table, kids));
    }

    method RemoveKid(p: Pcb, ghost i: Pid, ghost free: seq<Pid>, ghost procs: Table) returns (c: Pcb?)
      requires IsTable(table) && p == table[i] && i !in free && IsTree(table, free, procs)
      modifies Nodes(table)`child, Nodes(table)`nextSib, Nodes(table)`prevSib, Nodes(table)`parent
      ensures IsTree(table, free, Detached(procs, i))
      ensures c == if procs[i].kids == [] then null else table[procs[i].kids[0]]
    {
      c := TakeKid(p, i, free, procs);
      if procs[i].kids != [] { AtTail(table, procs[i].kids); }
      forall x: Pid | x !in free ensures IsChildOf(table, free, x, Detached(procs, i)[x]) {
        assert old(IsChildOf(table, free, x, procs[x]));
        DetachedAt(procs, i, x);
      }
    }

    /** The queues do not notice. */
    method RemoveKidAside(p: Pcb, ghost i: Pid, ghost s: Nucleus) returns (c: Pcb?)
      requires IsTable(table) && p == table[i] && i !in s.free && IsQueue(readyQ, At(table, s.ready))
      requires ListsMean(s.free, s.blocked) && TreeMeans(s.free, s.procs)
      modifies Nodes(table)`child, Nodes(table)`nextSib, Nodes(table)`prevSib, Nodes(table)`parent
      ensures IsQueue(readyQ, At(table, s.ready)) && ListsMean(s.free, s.blocked)
      ensures IsTree(table, s.free, Detached(s.procs, i)) && Names(table, s.free, s.procs)
      ensures c == if s.procs[i].kids == [] then null else table[s.procs[i].kids[0]]
    {
      c := RemoveKid(p, i, s.free, s.procs);
    }

    method RemoveFirst(p: Pcb, ghost i: Pid) returns (c: Pcb?)
      requires IsTable(table) && state in Meanings(readyQ) && p == table[i] && i !in state.free
      modifies Nodes(table)`child, Nodes(table)`nextSib, Nodes(table)`prevSib, Nodes(table)`parent
      ensures Detach(state, i) in Meanings(readyQ)
      ensures c == if state.procs[i].kids == [] then null else table[state.procs[i].kids[0]]
    {
      Unfold(readyQ, state);
      c := RemoveKidAside(p, i, state);
      SameStands(state, Detach(state, i));
      SameNames(table, state.free, state.procs, Detached(state.procs, i));
      Fold(readyQ, Detach(state, i));
    }

    /** removeChild */
    method RemoveChild(p: Pcb, ghost i: Pid) returns (c: Pcb?)
      requires Valid() && p == table[i] && i !in state.free
      modifies `readyQ, `state
      modifies Nodes(table)`child, Nodes(table)`nextSib, Nodes(table)`prevSib, Nodes(table)`parent
      ensures Valid() && state == Detach(old(state), i) && c == Ref(table, FirstChild(old(state), i))
    {
      ghost var t := Detach(state, i);
      c := RemoveFirst(p, i);
      Settle(readyQ, t);
    }

    /** insertChild; the other families do not notice. */
    method GiveKid(prnt: Pcb, p: Pcb, ghost c: Pid, ghost n: Pid, ghost free: seq<Pid>, ghost procs: Table)
      requires IsTable(table) && prnt == table[c] && p == table[n] && c !in free && n !in free && c != n
      requires IsTree(table, free, procs) && procs[n].parent == None
      modifies Nodes(table)`child, Nodes(table)`nextSib, Nodes(table)`prevSib, Nodes(table)`parent
      ensures OtherFamilies(table, free, procs, c) && IsFamily(prnt, At(table, procs[c].kids) + [p])
      ensures forall x: Pid :: x !in free ==> table[x].parent == if x == n then prnt else old(table[x].parent)
    {
      ghost var kids := procs[c].kids;
      assert IsChildOf(table, free, c, procs[c]) && IsChildOf(table, free, n, procs[n]);
      KinApart(table, free, procs, c);
      OrphanIsNobodys(table, free, procs, n, c);
      DifferentFrom(table, n);
      ProcessQueues.InsertChild(prnt, p, At(table, kids));
    }

    method InsertKid(prnt: Pcb, p: Pcb, ghost c: Pid, ghost n: Pid, ghost free: seq<Pid>, ghost procs: Table)
      requires IsTable(table) && prnt == table[c] && p == table[n] && c !in free && n !in free && c != n
      requires IsTree(table, free, procs) && procs[n].parent == None
      modifies Nodes(table)`child, Nodes(table)`nextSib, Nodes(table)`prevSib, Nodes(table)`parent
      ensures IsTree(table, free, Fostered(procs, c, n))
    {
      GiveKid(prnt, p, c, n, free, procs);
      AtAppend(table, procs[c].kids, n);
      forall x: Pid | x !in free ensures IsChildOf(table, free, x, Fostered(procs, c, n)[x]) {
        assert old(IsChildOf(table, free, x, procs[x]));
      }
    }

    method InsertLast(prnt: Pcb, p: Pcb, ghost c: Pid, ghost n: Pid)
      requires IsTable(table) && state in Meanings(readyQ) && prnt == table[c] && p == table[n]
      requires c !in state.free && n !in state.free && c != n && state.procs[n].parent == None
      modifies Nodes(table)`child, Nodes(table)`nextSib, Nodes(table)`prevSib, Nodes(table)`parent
      ensures state.(procs := Fostered(state.procs, c, n)) in Meanings(readyQ)
    {
      Unfold(readyQ, state);
      InsertKid(prnt, p, c, n, state.free, state.procs);
      SameNames(table, state.free, state.procs, Fostered(state.procs, c, n));
      SameStands(state, state.(procs := Fostered(state.procs, c, n)));
      Fold(readyQ, state.(procs := Fostered(state.procs, c, n)));
    }

    /** insertChild */
    method InsertChild(prnt: Pcb, p: Pcb, ghost c: Pid, ghost n: Pid)
      requires Valid() && prnt == table[c] && p == table[n]
      requires c !in state.free && n !in state.free && c != n && state.procs[n].parent == None
      modifies `readyQ, `state
      modifies Nodes(table)`child, Nodes(table)`nextSib, Nodes(table)`prevSib, Nodes(table)`parent
      ensures Valid() && state == old(state).(procs := Fostered(old(state).procs, c, n))
    {
      ghost var t := state.(procs := Fostered(state.procs, c, n));
      InsertLast(prnt, p, c, n);
      Settle(readyQ, t);
    }

    /** outChild; the other families do not notice. */
    method LoseKid(p: Pcb, ghost i: Pid, ghost q: Pid, ghost free: seq<Pid>, ghost procs: Table)
      requires IsTable(table) && p == table[i] && i !in free && IsTree(table, free, procs)
      requires procs[i].parent == Some(q) && q !in free && i in procs[q].kids
      modifies Nodes(table)`child, Nodes(table)`nextSib, Nodes(table)`prevSib, Nodes(table)`parent
      ensures OtherFamilies(table, free, procs, q) && IsFamily(table[q], Without(At(table, procs[q].kids), {p}))
      ensures forall x: Pid :: x !in free ==> table[x].parent == if x == i then null else old(table[x].parent)
    {
      ghost var kids := procs[q].kids;
      assert IsChildOf(table, free, q, procs[q]) && IsChildOf(table, free, i, procs[i]);
      KinApart(table, free, procs, q);
      AtMember(table, kids, i);
      DifferentFrom(table, i);
      assert p in At(table, kids) && ParentOf(p) == {table[q]};
      var removed := ProcessQueues.OutChild(p, At(table, kids));
    }

    method OutKid(p: Pcb, ghost i: Pid, ghost free: seq<Pid>, ghost procs: Table)
      requires IsTable(table) && p == table[i] && i !in free && IsTree(table, free, procs) && AtHome(free, procs, i)
      modifies Nodes(table)`child, Nodes(table)`nextSib, Nodes(table)`prevSib, Nodes(table)`parent
      ensures IsTree(table, free, Orphaned(procs, i))
    {
      assert IsChildOf(table, free, i, procs[i]);
      if p.parent != null {
        ghost var q := procs[i].parent.value;
        LoseKid(p, i, q, free, procs);
        AtWithout(table, procs[q].kids, i);
        WithoutMembers<Pid>(procs[q].kids, {i});
        forall x: Pid | x !in free ensures IsChildOf(table, free, x, Orphaned(procs, i)[x]) {
          assert old(IsChildOf(table, free, x, procs[x]));
        }
      }
    }

    /** The queues do not notice. */
    method OutKidAside(p: Pcb, ghost i: Pid, ghost s: Nucleus)
      requires IsTable(table) && p == table[i] && i !in s.free && AtHome(s.free, s.procs, i)
      requires IsQueue(readyQ, At(table, s.ready)) && ListsMean(s.free, s.blocked) && TreeMeans(s.free, s.procs)
      modifies Nodes(table)`child, Nodes(table)`nextSib, Nodes(table)`prevSib, Nodes(table)`parent
      ensures IsQueue(readyQ, At(table, s.ready)) && ListsMean(s.free, s.blocked)
      ensures IsTree(table, s.free, Orphaned(s.procs, i)) && Names(table, s.free, s.procs)
    {
      OutKid(p, i, s.free, s.procs);
    }

    method OutFamily(p: Pcb, ghost i: Pid)
      requires IsTable(table) && state in Meanings(readyQ) && p == table[i] && i !in state.free
      requires AtHome(state.free, state.procs, i)
      modifies Nodes(table)`child, Nodes(table)`nextSib, Nodes(table)`prevSib, Nodes(table)`parent
      ensures Orphan(state, i) in Meanings(readyQ)
    {
      Unfold(readyQ, state);
      OutKidAside(p, i, state);
      SameStands(state, Orphan(state, i));
      SameNames(table, state.free, state.procs, Orphaned(state.procs, i));
      Fold(readyQ, Orphan(state, i));
    }

    /** outChild */
    method OutChild(p: Pcb, ghost i: Pid)
      requires Valid() && p == table[i] && i !in state.free && AtHome(state.free, state.procs, i)
      modifies `readyQ, `state
      modifies Nodes(table)`child, Nodes(table)`nextSib, Nodes(table)`prevSib, Nodes(table)`parent
      ensures Valid() && state == Orphan(old(state), i)
    {
      ghost var t := Orphan(state, i);
      OutFamily(p, i);
      Settle(readyQ, t);
    }

    // ---- the semaphore list

    /** insertBlocked: the ready queue does not notice. */
    method BlockApart(a: int, p: Pcb, ghost q: seq<Pcb>)
      requires IsQueue(readyQ, q) && asl.Valid() && Members(asl.model.descs) !! Nodes(q)
      requires a != asl.tailAddr && p !in q && p !in Members(asl.model.descs)
      modifies asl, asl.table, Members(asl.model.descs)`next, Members(asl.model.descs)`prev, p`next, p`prev, p`semAdd
      ensures IsQueue(readyQ, q) && asl.Valid()
      ensures asl.model == InsertBlocked(old(asl.model), a, p)
      ensures p.semAdd == if CanBlock(old(asl.model), a) then a else old(p.semAdd)
    {
      var failed := asl.InsertBlocked(a, p);
    }

    /** Nor do the free list and the tree. */
    method BlockAside(a: int, p: Pcb, ghost q: seq<Pcb>, ghost free: seq<Pid>, ghost procs: Table)
      requires |table| == MAXPROC && IsQueue(readyQ, q) && pool.Valid() && asl.Valid() && IsTree(table, free, procs)
      requires a != asl.tailAddr && p in table && p !in q && p !in pool.free && p !in Members(asl.model.descs)
      requires Members(asl.model.descs) !! Nodes(q) && Members(asl.model.descs) !! Nodes(pool.free)
      requires Members(asl.model.descs) <= Nodes(table)
      modifies asl, asl.table, Nodes(table)`next, Nodes(table)`prev, p`semAdd
      ensures IsQueue(readyQ, q) && pool.Valid() && asl.Valid() && IsTree(table, free, procs)
      ensures asl.model == InsertBlocked(old(asl.model), a, p)
      ensures p.semAdd == if CanBlock(old(asl.model), a) then a else old(p.semAdd)
    {
      BlockApart(a, p, q);
    }

    method BlockNamed(a: int, p: Pcb, ghost i: Pid, ghost s: Nucleus)
      requires IsTable(table) && s in Meanings(readyQ) && p == table[i] && Stands(s, i) == 0 && a in s.sem
      modifies asl, asl.table, Nodes(table)`next, Nodes(table)`prev, p`semAdd
      ensures IsQueue(readyQ, At(table, s.ready)) && pool.Valid() && asl.Valid() && IsTree(table, s.free, s.procs)
      ensures asl.model == AtAll(table, InsertBlocked(s.blocked, a, i))
      ensures Names(table, s.free, BlockOn(s, i, a).procs)
    {
      Unfold(readyQ, s);
      SeparateIsDisjoint(table, s);
      OneOfThree(table, s, i);
      AtInsert(table, s.blocked, a, i);
      AtQueueOf(table, s.blocked, a);
      NamesOf(table, s.free, s.procs, i);
      BlockAside(a, p, At(table, s.ready), s.free, s.procs);
      BlockOnRenames(s, i, a);
      RenamedNames(table, s, BlockOn(s, i, a), i);
    }

    method BlockLast(a: int, p: Pcb, ghost i: Pid)
      requires IsTable(table) && state in Meanings(readyQ) && p == table[i] && Stands(state, i) == 0 && a in state.sem
      modifies asl, asl.table, Nodes(table)`next, Nodes(table)`prev, p`semAdd
      ensures BlockOn(state, i, a) in Meanings(readyQ)
    {
      Unfold(readyQ, state);
      ghost var t := BlockOn(state, i, a);
      BlockedMore(state, a, i);
      SameStands(state.(blocked := t.blocked), t);
      BlockNamed(a, p, i, state);
      BlockOnRenames(state, i, a);
      RenamedTree(table, state, t, i);
      Fold(readyQ, t);
    }

    /** insertBlocked */
    method InsertBlockedPcb(a: int, p: Pcb, ghost i: Pid)
      requires Valid() && p == table[i] && Stands(state, i) == 0 && a in state.sem
      modifies `readyQ, `state, asl, asl.table, Nodes(table)`next, Nodes(table)`prev, p`semAdd
      ensures Valid() && state == BlockOn(old(state), i, a)
    {
      ghost var t := BlockOn(state, i, a);
      BlockOnRenames(state, i, a);
      BlockLast(a, p, i);
      Settle(readyQ, t);
    }

    /** removeBlocked: the ready queue does not notice. */
    method ReleaseApart(a: int, ghost q: seq<Pcb>) returns (w: Pcb?)
      requires IsQueue(readyQ, q) && asl.Valid() && Members(asl.model.descs) !! Nodes(q) && a != asl.tailAddr
      modifies asl, asl.table, Members(asl.model.descs)`next, Members(asl.model.descs)`prev
      modifies Head(QueueOf(asl.model, a))`semAdd
      ensures IsQueue(readyQ, q) && asl.Valid()
      ensures asl.model == RemoveBlocked(old(asl.model), a)
      ensures w == if QueueOf(old(asl.model), a) == [] then null else QueueOf(old(asl.model), a)[0]
      ensures w != null ==> w.semAdd == NULL_ADDR
    {
      w := asl.RemoveBlocked(a);
    }

    /** Nor does the free list. */
    method ReleasePooled(a: int, ghost q: seq<Pcb>) returns (w: Pcb?)
      requires IsQueue(readyQ, q) && pool.Valid() && asl.Valid() && a != asl.tailAddr
      requires Members(asl.model.descs) !! Nodes(q) && Members(asl.model.descs) !! Nodes(pool.free)
      modifies asl, asl.table, Members(asl.model.descs)`next, Members(asl.model.descs)`prev
      modifies Head(QueueOf(asl.model, a))`semAdd
      ensures IsQueue(readyQ, q) && pool.Valid() && asl.Valid()
      ensures asl.model == RemoveBlocked(old(asl.model), a)
      ensures w == if QueueOf(old(asl.model), a) == [] then null else QueueOf(old(asl.model), a)[0]
      ensures w != null ==> w.semAdd == NULL_ADDR
    {
      w := ReleaseApart(a, q);
    }

    /** Nor does the tree. */
    method ReleaseAside(a: int, ghost q: seq<Pcb>, ghost free: seq<Pid>, ghost procs: Table) returns (w: Pcb?)
      requires |table| == MAXPROC && IsQueue(readyQ, q) && pool.Valid() && asl.Valid() && IsTree(table, free, procs)
      requires a != asl.tailAddr && Members(asl.model.descs) <= Nodes(table)
      requires Members(asl.model.descs) !! Nodes(q) && Members(asl.model.descs) !! Nodes(pool.free)
      modifies asl, asl.table, Nodes(table)`next, Nodes(table)`prev, Head(QueueOf(asl.model, a))`semAdd
      ensures IsQueue(readyQ, q) && pool.Valid() && asl.Valid() && IsTree(table, free, procs)
      ensures asl.model == RemoveBlocked(old(asl.model), a)
      ensures w == if QueueOf(old(asl.model), a) == [] then null else QueueOf(old(asl.model), a)[0]
      ensures w != null ==> w.semAdd == NULL_ADDR
    {
      w := ReleasePooled(a, q);
    }

    method ReleaseListed(a: int, ghost i: Pid, ghost s: Nucleus) returns (w: Pcb?)
      requires IsTable(table) && s in Meanings(readyQ) && a in s.sem && i == FirstOr(s, a, 0)
      modifies asl, asl.table, Nodes(table)`next, Nodes(table)`prev, {table[i]}`semAdd
      ensures IsQueue(readyQ, At(table, s.ready)) && pool.Valid() && asl.Valid() && IsTree(table, s.free, s.procs)
      ensures asl.model == AtAll(table, RemoveBlocked(s.blocked, a)) && w == Ref(table, HeadBlocked(s.blocked, a))
      ensures table[i].semAdd == if w == null then old(table[i].semAdd) else NULL_ADDR
    {
      Unfold(readyQ, s);
      SeparateIsDisjoint(table, s);
      AtRemove(table, s.blocked, a);
      HeadAt(table, s, a, 0);
      w := ReleaseAside(a, At(table, s.ready), s.free, s.procs);
    }

    method ReleaseNamed(a: int, ghost s: Nucleus) returns (w: Pcb?)
      requires IsTable(table) && s in Meanings(readyQ) && a in s.sem
      modifies asl, asl.table, Nodes(table)`next, Nodes(table)`prev, Nodes(table)`semAdd
      ensures IsQueue(readyQ, At(table, s.ready)) && pool.Valid() && asl.Valid() && IsTree(table, s.free, s.procs)
      ensures asl.model == AtAll(table, RemoveBlocked(s.blocked, a)) && w == Ref(table, HeadBlocked(s.blocked, a))
      ensures Names(table, s.free, Unblocked(s, a).procs)
    {
      ghost var i := FirstOr(s, a, 0);
      NamesHeld(s, i);
      w := ReleaseListed(a, i, s);
      UnblockedRenames(s, a, 0);
      RenamedNames(table, s, Unblocked(s, a), i);
    }

    lemma NamesHeld(s: Nucleus, i: Pid)
      requires IsTable(table) && s in Meanings(readyQ)
      ensures OtherNames(table, s.free, s.procs, i) && table[i] !in OtherPcbs(table, i)
      ensures i !in s.free ==> table[i].semAdd == s.procs[i].semAdd
    {
      Unfold(readyQ, s);
      NamesOf(table, s.free, s.procs, i);
    }

    method ReleaseFirst(a: int) returns (w: Pcb?)
      requires IsTable(table) && state in Meanings(readyQ) && a in state.sem
      modifies asl, asl.table, Nodes(table)`next, Nodes(table)`prev, Nodes(table)`semAdd
      ensures Unblocked(state, a) in Meanings(readyQ) && w == Ref(table, HeadBlocked(state.blocked, a))
    {
      Unfold(readyQ, state);
      ghost var t := Unblocked(state, a);
      UnblockedStands(state, a);
      w := ReleaseNamed(a, state);
      UnblockedRenames(state, a, 0);
      RenamedTree(table, state, t, FirstOr(state, a, 0));
      Fold(readyQ, t);
    }

    /** removeBlocked */
    method RemoveBlockedHead(a: int) returns (w: Pcb?)
      requires Valid() && a in state.sem
      modifies `readyQ, `state, asl, asl.table, Nodes(table)`next, Nodes(table)`prev, Nodes(table)`semAdd
      ensures Valid() && state == Unblocked(old(state), a) && w == Ref(table, HeadBlocked(old(state).blocked, a))
    {
      ghost var t := Unblocked(state, a);
      UnblockedRenames(state, a, 0);
      w := ReleaseFirst(a);
      Settle(readyQ, t);
    }

    /** outBlocked: the ready queue does not notice. */
    method OutBlockedApart(p: Pcb, ghost q: seq<Pcb>) returns (r: Pcb?)
      requires IsQueue(readyQ, q) && asl.Valid() && Members(asl.model.descs) !! Nodes(q) && p.semAdd != asl.tailAddr
      modifies asl, asl.table, Members(asl.model.descs)`next, Members(asl.model.descs)`prev
      ensures IsQueue(readyQ, q) && asl.Valid() && asl.model == OutBlocked(old(asl.model), p.semAdd, p)
      ensures r == if p in QueueOf(old(asl.model), p.semAdd) then p else null
    {
      r := asl.OutBlocked(p);
    }

    /** Nor do the free list and the tree. */
    method OutBlockedAside(p: Pcb, ghost q: seq<Pcb>, ghost free: seq<Pid>, ghost procs: Table) returns (r: Pcb?)
      requires |table| == MAXPROC && IsQueue(readyQ, q) && pool.Valid() && asl.Valid() && TreeMeans(free, procs)
      requires p.semAdd != asl.tailAddr && Members(asl.model.descs) <= Nodes(table)
      requires Members(asl.model.descs) !! Nodes(q) && Members(asl.model.descs) !! Nodes(pool.free)
      modifies asl, asl.table, Nodes(table)`next, Nodes(table)`prev
      ensures IsQueue(readyQ, q) && pool.Valid() && asl.Valid() && TreeMeans(free, procs)
      ensures asl.model == OutBlocked(old(asl.model), p.semAdd, p)
      ensures r == if p in QueueOf(old(asl.model), p.semAdd) then p else null
    {
      r := OutBlockedApart(p, q);
    }

    method OutBlockedListed(p: Pcb, ghost i: Pid, ghost s: Nucleus) returns (r: Pcb?)
      requires IsTable(table) && s in Meanings(readyQ) && p == table[i] && i !in s.free
      requires s.procs[i].semAdd != asl.tailAddr
      modifies asl, asl.table, Nodes(table)`next, Nodes(table)`prev
      ensures IsQueue(readyQ, At(table, s.ready)) && pool.Valid() && asl.Valid() && TreeMeans(s.free, s.procs)
      ensures asl.model == AtAll(table, OutBlocked(s.blocked, s.procs[i].semAdd, i))
      ensures r == if i in QueueOf(s.blocked, s.procs[i].semAdd) then p else null
    {
      Unfold(readyQ, s);
      SeparateIsDisjoint(table, s);
      NamesOf(table, s.free, s.procs, i);
      AtOut(table, s.blocked, p.semAdd, i);
      AtQueueOf(table, s.blocked, p.semAdd);
      AtMember(table, QueueOf(s.blocked, p.semAdd), i);
      r := OutBlockedAside(p, At(table, s.ready), s.free, s.procs);
    }

    method OutBlockedLast(p: Pcb, ghost i: Pid) returns (r: Pcb?)
      requires IsTable(table) && state in Meanings(readyQ) && p == table[i] && i !in state.free
      requires state.procs[i].semAdd != asl.tailAddr
      modifies asl, asl.table, Nodes(table)`next, Nodes(table)`prev
      ensures state.(blocked := OutBlocked(state.blocked, state.procs[i].semAdd, i)) in Meanings(readyQ)
      ensures r == if i in QueueOf(state.blocked, state.procs[i].semAdd) then p else null
    {
      Unfold(readyQ, state);
      BlockedWithout(state, state.procs[i].semAdd, i);
      r := OutBlockedListed(p, i, state);
      Fold(readyQ, Unlisted(state, i));
    }

    /** outBlocked */
    method OutBlockedPcb(p: Pcb, ghost i: Pid) returns (r: Pcb?)
      requires Valid() && p == table[i] && i !in state.free && state.procs[i].semAdd != asl.tailAddr
      modifies `readyQ, `state, asl, asl.table, Nodes(table)`next, Nodes(table)`prev
      ensures Valid() && state == Unlisted(old(state), i)
      ensures r == if i in QueueOf(old(state).blocked, state.procs[i].semAdd) then p else null
    {
      ghost var t := Unlisted(state, i);
      r := OutBlockedLast(p, i);
      Settle(readyQ, t);
    }

    // ---- variables of the nucleus

    /** Numbers are no links. */
    lemma SameLinks(s: Nucleus, t: Nucleus)
      requires IsTable(table) && s in Meanings(readyQ) && t.sem.Keys == s.sem.Keys
      requires t.free == s.free && t.ready == s.ready && t.blocked == s.blocked && t.procs == s.procs
      ensures t in Meanings(readyQ)
    {
      Unfold(readyQ, s);
      SameStands(s, t);
      Fold(readyQ, t);
    }

    /** An assignment through a semaphore address. */
    method Store(a: int, v: int)
      requires Valid() && a in words
      modifies `words, `state
      ensures Valid() && state == old(state).(sem := old(state).sem[a := v])
      ensures Saved() == old(Saved())
    {
      ghost var t := state.(sem := state.sem[a := v]);
      SameLinks(state, t);
      words := words[a := v];
      state := t;
    }

    method AddProcesses(n: int)
      requires Valid()
      modifies `processCount, `state
      ensures Valid() && state == old(state).(processCount := old(state).processCount + n)
      ensures Saved() == old(Saved())
    {
      ghost var t := state.(processCount := state.processCount + n);
      SameLinks(state, t);
      processCount := processCount + n;
      state := t;
    }

    method AddSoftBlocked(n: int)
      requires Valid()
      modifies `softBlockCount, `state
      ensures Valid() && state == old(state).(softBlock := old(state).softBlock + n)
      ensures Saved() == old(Saved())
    {
      ghost var t := state.(softBlock := state.softBlock + n);
      SameLinks(state, t);
      softBlockCount := softBlockCount + n;
      state := t;
    }

    lemma Separated()
      requires Valid()
      ensures Separate(state) && asl.tailAddr !in words && asl.tailAddr != NULL_ADDR
    {
      Unfold(readyQ, state);
    }

    // ---- what is saved of a process

    method Save(p: Pcb, ghost i: Pid, cpu: Cpu)
      requires Valid() && p == table[i]
      modifies p`cpu
      ensures Valid() && Saved() == old(Saved())[i := old(Saved())[i].(cpu := cpu)]
    {
      DifferentFrom(table, i);
      p.cpu := cpu;
    }

    /** The time since the process was dispatched is added to its account. */
    method Charge(p: Pcb, ghost i: Pid, timer: int)
      requires Valid() && p == table[i]
      modifies p`time
      ensures Valid() && Saved() == Charged(old(Saved()), i, timer)
    {
      DifferentFrom(table, i);
      p.time := p.time + (TIME_SLICE - timer);
    }

    method Equip(p: Pcb, ghost i: Pid, support: int)
      requires Valid() && p == table[i]
      modifies p`support
      ensures Valid()
      ensures Saved() == old(Saved())[i := old(Saved())[i].(support := if support == 0 then NULL_ADDR else support)]
    {
      DifferentFrom(table, i);
      if support != NULL_ADDR && support != 0 {
        p.support := support;
      } else {
        p.support := NULL_ADDR;
      }
    }

    /** A blank pcb gets the state and the support structure of a new process. */
    method SetUp(p: Pcb, ghost i: Pid, cpu: Cpu, support: int)
      requires Valid() && p == table[i] && Saved()[i] == BLANK
      modifies p`cpu, p`support
      ensures Valid() && Saved() == Created(old(Saved()), i, cpu, support)
    {
      Save(p, i, cpu);
      Equip(p, i, support);
    }

    // ---- the scheduler

    /** Round robin: the head of the ready queue runs next, in its saved state. With an empty
        ready queue the machine halts when no process is left, waits when somebody is
        soft-blocked, and panics otherwise. */
    method Scheduler() returns (v: Verdict, loaded: Option<Cpu>)
      requires Valid()
      modifies `readyQ, `currentP, `state, Nodes(table)`next, Nodes(table)`prev
      ensures Valid() && state == Schedule(old(state)) && v == VerdictIn(state)
      ensures v == Dispatch <==> old(state).ready != []
      ensures v == Dispatch <==> currentP != null
      ensures v == Halt <==> old(state).ready == [] && processCount == 0
      ensures v == Wait <==> old(state).ready == [] && processCount != 0 && softBlockCount > 0
      ensures v == Panic <==> old(state).ready == [] && processCount != 0 && softBlockCount <= 0
      ensures loaded == if old(state).ready == [] then None else Some(Saved()[old(state).ready[0]].cpu)
      ensures loaded == DispatchedIn(state, Saved()) && Saved() == old(Saved())
    {
      Dequeue();
      if currentP == null {
        if processCount == 0 {
          return Halt, None;
        } else if softBlockCount > 0 {
          return Wait, None;
        } else {
          return Panic, None;
        }
      }
      return Dispatch, Some(currentP.cpu);
    }

    /** helper_blocking_syscall_handler, and the end of a time slice: the running process gives
        up the processor, to resume in state `cpu`. */
    method GiveUp(cpu: Cpu, timer: int)
      requires Valid() && state.current.Some?
      modifies Nodes(table)`cpu, Nodes(table)`time
      ensures Valid() && Saved() == Stopped(old(Saved()), state.current.value, cpu, timer)
    {
      Save(currentP, state.current.value, cpu);
      Charge(currentP, state.current.value, timer);
    }

    // ---- system calls

    /** SYS1: -1 and no effect when every pcb is in use, else a ready child with the given
        processor state and support structure, and no time used. The caller goes on. */
    method SysCreate(cpu: Cpu, support: int, saved: Cpu, timer: int) returns (v0: int, loaded: Cpu)
      requires Valid() && state.current.Some? && state.current.value !in state.free
      modifies Repr()
      ensures Valid() && state == CreateProcess(old(state)) && v0 == if old(state).free == [] then -1 else 0
      ensures loaded == Past(WithV0(saved, v0))
      ensures var made := if v0 != 0 then old(Saved()) else Created(old(Saved()), old(state).free[0], cpu, support);
              Saved() == Charged(made, old(state).current.value, timer)
    {
      ghost var c := state.current.value;
      v0 := Create(cpu, support);
      Charge(currentP, c, timer);
      loaded := Past(WithV0(saved, v0));
    }

    method Create(cpu: Cpu, support: int) returns (v0: int)
      requires Valid() && state.current.Some? && state.current.value !in state.free
      modifies Repr()
      ensures Valid() && state == CreateProcess(old(state)) && v0 == if old(state).free == [] then -1 else 0
      ensures state.current == old(state).current
      ensures Saved() == if v0 != 0 then old(Saved()) else Created(old(Saved()), old(state).free[0], cpu, support)
    {
      Separated();
      ghost var s := state;
      if state.free != [] {
        FreeLess(state);
        AdoptedInSteps(state);
      }
      FreeHeads();
      var n := NewPcb(cpu, support);
      if n == null {
        return -1;
      }
      TakeIn(n, s.free[0]);
      return 0;
    }

    /** A pcb, if there is one, with the state and the support structure of a new process. */
    method NewPcb(cpu: Cpu, support: int) returns (n: Pcb?)
      requires Valid()
      modifies `readyQ, `state, pool, Head(pool.free)
      ensures Valid()
      ensures if old(state).free == [] then n == null && state == old(state) && Saved() == old(Saved())
              else n == table[old(state).free[0]] && state == Allocated(old(state))
                   && Saved() == Created(old(Saved()), old(state).free[0], cpu, support)
    {
      ghost var s := state;
      FreeHeads();
      n := AllocPcb();
      if n != null {
        SetUp(n, s.free[0], cpu, support);
      }
    }

    /** The new process becomes ready and the last child of the running one. */
    method TakeIn(n: Pcb, ghost i: Pid)
      requires Valid() && n == table[i] && Stands(state, i) == 0 && i !in state.free && state.procs[i].parent == None
      requires state.current.Some? && state.current.value !in state.free && state.current.value != i
      modifies `readyQ, `state, `processCount, Nodes(table)`next, Nodes(table)`prev
      modifies Nodes(table)`child, Nodes(table)`nextSib, Nodes(table)`prevSib, Nodes(table)`parent
      ensures Valid() && state == TakenIn(old(state), i)
      ensures Saved() == old(Saved())
    {
      Enready(n, i);
      InsertChild(currentP, n, state.current.value, i);
      AddProcesses(1);
    }

    /** Kills `p` and all its descendants, and nobody else. Terminates because a child
        ranks above its parent. */
    method HelperTerminateProcess(p: Pcb, ghost i: Pid, ghost rank: map<Pid, nat>, ghost top: nat)
      returns (ghost gone: set<Pid>)
      requires Valid() && p == table[i] && Structured(state) && Family(state, rank) && i !in state.free
      requires forall x: Pid :: rank[x] < top
      modifies `readyQ, `state, `words, `processCount, `softBlockCount, pool, asl, asl.table
      modifies Nodes(table)`next, Nodes(table)`prev, Nodes(table)`semAdd
      modifies Nodes(table)`child, Nodes(table)`parent, Nodes(table)`nextSib, Nodes(table)`prevSib
      ensures Valid() && IsSubtree(old(state), i, gone) && Reaped(old(state), gone, state)
      decreases top - rank[i], 2
    {
      ghost var s := state;
      ghost var t;
      PartialStart(s, i);
      gone, t := ReapChildren(p, i, rank, top, s);
      ReapingKeeps(s, rank, top, i, gone, t);
      PartialEnd(s, rank, i, gone, t);
      gone := gone + {i};
      ReapChildless(p, i, rank);
    }

    /** The loop: the first child is detached and its subtree goes, until there is none. */
    method ReapChildren(p: Pcb, ghost i: Pid, ghost rank: map<Pid, nat>, ghost top: nat, ghost s: Nucleus)
      returns (ghost gone: set<Pid>, ghost t: Nucleus)
      requires Valid() && p == table[i] && i in rank && s in Trees(rank, top, i)
      requires s in Survivors(s, i, {}) && state == s && i !in state.free
      modifies `readyQ, `state, `words, `processCount, `softBlockCount, pool, asl, asl.table
      modifies Nodes(table)`next, Nodes(table)`prev, Nodes(table)`semAdd
      modifies Nodes(table)`child, Nodes(table)`parent, Nodes(table)`nextSib, Nodes(table)`prevSib
      ensures Valid() && t in Survivors(s, i, gone) && state == t && t.procs[i].kids == []
      decreases top - rank[i], 1
    {
      gone, t := {}, s;
      var child := RemoveChild(p, i);
      while child != null
        invariant Valid() && t in Survivors(s, i, gone)
        invariant state == Detach(t, i) && child == Ref(table, FirstChild(t, i))
        decreases |t.procs[i].kids|
      {
        gone, t, child := ReapChild(child, p, i, rank, top, s, gone, t);
      }
    }

    /** The body of the loop: the subtree of a detached child goes, and the next is detached. */
    method ReapChild(c: Pcb, p: Pcb, ghost i: Pid, ghost rank: map<Pid, nat>, ghost top: nat,
                     ghost s: Nucleus, ghost gone: set<Pid>, ghost t: Nucleus)
      returns (ghost gone': set<Pid>, ghost t': Nucleus, next: Pcb?)
      requires Valid() && p == table[i] && i in rank && s in Trees(rank, top, i) && t in Survivors(s, i, gone)
      requires state == Detach(t, i) && c == Ref(table, FirstChild(t, i))
      modifies `readyQ, `state, `words, `processCount, `softBlockCount, pool, asl, asl.table
      modifies Nodes(table)`next, Nodes(table)`prev, Nodes(table)`semAdd
      modifies Nodes(table)`child, Nodes(table)`parent, Nodes(table)`nextSib, Nodes(table)`prevSib
      ensures Valid() && t' in Survivors(s, i, gone') && |t'.procs[i].kids| < |t.procs[i].kids|
      ensures state == Detach(t', i) && next == Ref(table, FirstChild(t', i))
      decreases top - rank[i], 0
    {
      ReapingKeeps(s, rank, top, i, gone, t);
      DetachKeeps(t, rank, i);
      ghost var more := HelperTerminateProcess(c, t.procs[i].kids[0], rank, top);
      ReapingStep(s, rank, top, i, gone, t, more, state);
      gone', t' := gone + more, state;
      next := RemoveChild(p, i);
    }

    /** The rest of helper_terminate_process, once `p` has no children left. */
    method ReapChildless(p: Pcb, ghost i: Pid, ghost rank: map<Pid, nat>)
      requires Valid() && p == table[i] && Structured(state) && Family(state, rank) && i !in state.free
      modifies `readyQ, `state, `words, `processCount, `softBlockCount, pool, asl, asl.table
      modifies Nodes(table)`next, Nodes(table)`prev, Nodes(table)`semAdd
      modifies Nodes(table)`child, Nodes(table)`parent, Nodes(table)`nextSib, Nodes(table)`prevSib
      ensures Valid() && state == ReapOne(old(state), i)
    {
      Separated();
      ReapedInSteps(state, rank, i);
      NamesASemaphore(state, i);
      OutChild(p, i);
      Unblock(p, i);
      OutReady(p, i);
      FreePcb(p, i);
      AddProcesses(-1);
    }

    /** Takes `p` off the semaphore its pcb names, repaying the debt or the soft-block count. */
    method Unblock(p: Pcb, ghost i: Pid)
      requires Valid() && Listed(state) && p == table[i] && i !in state.free
      requires state.procs[i].semAdd == NULL_ADDR || state.procs[i].semAdd in state.sem
      modifies `readyQ, `state, `words, `softBlockCount, asl, asl.table, Nodes(table)`next, Nodes(table)`prev
      ensures Valid() && state == Unqueue(old(state), i)
    {
      Separated();
      NamesHeld(state, i);
      var a := p.semAdd;
      var unblocked := OutBlockedPcb(p, i);
      if a < DEVICE_BASE || a > DEVICE_LAST {
        if unblocked != null {
          if words[a] < 0 {
            Store(a, words[a] + 1);
          }
        }
      } else if unblocked != null {
        AddSoftBlocked(-1);
      }
    }

    /** SYS2, and the end of a process whose exception nobody handles. */
    method SysTerminate() returns (ghost gone: set<Pid>, ghost reaped: Nucleus, v: Verdict, loaded: Option<Cpu>)
      requires Valid() && Structured(state) && Forest(state)
      requires state.current.Some? && state.current.value !in state.free
      modifies Repr()
      ensures IsSubtree(old(state), old(state).current.value, gone) && Reaped(old(state), gone, reaped)
      ensures Valid() && state == Schedule(reaped) && v == VerdictIn(state)
      ensures Saved() == old(Saved()) && loaded == DispatchedIn(state, Saved())
    {
      ghost var rank :| Family(state, rank);
      ghost var top := RankBound(rank);
      gone := HelperTerminateProcess(currentP, state.current.value, rank, top);
      reaped := state;
      v, loaded := Scheduler();
    }

    /** SYS3: P. A caller that must wait gives up the processor, to resume past the call. */
    method SysPasseren(a: int, saved: Cpu, timer: int) returns (v: Verdict, loaded: Option<Cpu>)
      requires Valid() && Running(state) && a in words
      modifies Repr()
      ensures Valid() && state == Passeren(old(state), a) && v == VerdictIn(state)
      ensures loaded == if old(words)[a] > 0 then Some(Past(saved)) else DispatchedIn(state, Saved())
      ensures old(words)[a] > 0 ==> Saved() == Charged(old(Saved()), old(state).current.value, timer)
      ensures old(words)[a] <= 0 ==> Saved() == Stopped(old(Saved()), old(state).current.value, Past(saved), timer)
    {
      Debit(a);
      if words[a] < 0 {
        GiveUp(Past(saved), timer);
        v, loaded := Scheduler();
      } else {
        Charge(currentP, state.current.value, timer);
        v, loaded := Dispatch, Some(Past(saved));
      }
    }

    /** One less, and the running process is blocked if that is negative. */
    method Debit(a: int)
      requires Valid() && Running(state) && a in words
      modifies `readyQ, `state, `words, asl, asl.table
      modifies Nodes(table)`next, Nodes(table)`prev, Nodes(table)`semAdd
      ensures Valid() && state == Debited(old(state), a) && state.current == old(state).current
      ensures words == old(words)[a := old(words)[a] - 1]
      ensures Saved() == old(Saved())
    {
      Store(a, words[a] - 1);
      if words[a] < 0 {
        InsertBlockedPcb(a, currentP, state.current.value);
      }
    }

    /** SYS4. The caller goes on. */
    method SysVerhogen(a: int, saved: Cpu, timer: int) returns (w: Pcb?, loaded: Cpu)
      requires Valid() && state.current.Some? && a in words
      modifies Repr()
      ensures Valid() && state == Verhogen(old(state), a) && loaded == Past(saved)
      ensures w == if old(words)[a] + 1 <= 0 then Ref(table, HeadBlocked(old(state).blocked, a)) else null
      ensures Saved() == Charged(old(Saved()), old(state).current.value, timer)
    {
      w := HelperVerhogen(a);
      Charge(currentP, state.current.value, timer);
      loaded := Past(saved);
    }

    /** V: hands over to the first waiter, and returns it. */
    method HelperVerhogen(a: int) returns (w: Pcb?)
      requires Valid() && a in words
      modifies `readyQ, `state, `words, asl, asl.table
      modifies Nodes(table)`next, Nodes(table)`prev, Nodes(table)`semAdd
      ensures Valid() && state == Verhogen(old(state), a)
      ensures w == if old(words)[a] + 1 <= 0 then Ref(table, HeadBlocked(old(state).blocked, a)) else null
      ensures Saved() == old(Saved())
    {
      Separated();
      SameStands(state, Add(state, a, 1));
      UnblockedStands(Add(state, a, 1), a);
      ghost var i := FirstOr(state, a, 0);
      Store(a, words[a] + 1);
      if words[a] <= 0 {
        w := RemoveBlockedHead(a);
        if w == null {
          return null;
        }
        Enready(w, i);
        return w;
      }
      return null;
    }

    /** SYS5 on device semaphore `i`, and SYS7 when `i` is the clock: the caller gives up the
        processor, to resume past the call. */
    method SysWait(i: nat, saved: Cpu, timer: int) returns (v: Verdict, loaded: Option<Cpu>)
      requires Valid() && Running(state) && i <= 48 && DeviceSem(i) in words
      modifies Repr()
      ensures Valid() && state == WaitOn(old(state), DeviceSem(i))
      ensures v == VerdictIn(state) && loaded == DispatchedIn(state, Saved())
      ensures Saved() == Stopped(old(Saved()), old(state).current.value, Past(saved), timer)
    {
      ghost var c := state.current.value;
      Owe(DeviceSem(i));
      GiveUp(Past(saved), timer);
      assert Saved() == Stopped(old(Saved()), c, Past(saved), timer);
      v, loaded := Scheduler();
    }

    method Owe(a: int)
      requires Valid() && Running(state) && a in words
      modifies `readyQ, `state, `words, `softBlockCount, asl, asl.table
      modifies Nodes(table)`next, Nodes(table)`prev, Nodes(table)`semAdd
      ensures Valid() && Schedule(state) == WaitOn(old(state), a) && state.current == old(state).current
      ensures Saved() == old(Saved())
    {
      Debit(a);
      AddSoftBlocked(1);
    }

    // ---- interrupts

    /** The end of an interrupt handler: the interrupted process goes on where it was, or the
        scheduler is called if there was none. */
    method Resumed(saved: Cpu) returns (v: Verdict, loaded: Option<Cpu>)
      requires Valid()
      modifies `readyQ, `currentP, `state, Nodes(table)`next, Nodes(table)`prev
      ensures Valid() && state == Resume(old(state)) && v == VerdictIn(state)
      ensures loaded == if old(state).current.Some? then Some(saved) else DispatchedIn(state, Saved())
      ensures Saved() == old(Saved())
    {
      if currentP == null {
        v, loaded := Scheduler();
      } else {
        v, loaded := Dispatch, Some(saved);
      }
    }

    /** A device is done: V on its semaphore, and one soft-blocked process fewer if it wakes
        one, which finds the device status in its register v0. Nothing else that is saved of
        any process changes. The V takes its semaphore from register a1 of the interrupted
        process, which goes on with the address left there. */
    method OnDevice(i: nat, status: int, saved: Cpu) returns (v: Verdict, loaded: Option<Cpu>)
      requires Valid() && i < 48 && DeviceSem(i) in words
      modifies Repr()
      ensures Valid() && state == DeviceInterrupt(old(state), DeviceSem(i)) && v == VerdictIn(state)
      ensures loaded == if old(state).current.Some? then Some(WithA1(saved, DeviceSem(i)))
                        else DispatchedIn(state, Saved())
      ensures var first := HeadBlocked(old(state).blocked, DeviceSem(i));
              Saved() == if old(words)[DeviceSem(i)] < 0 && first.Some? then Told(old(Saved()), first.value, status)
                         else old(Saved())
    {
      WakeWaiter(DeviceSem(i), status);
      v, loaded := Resumed(WithA1(saved, DeviceSem(i)));
    }

    method WakeWaiter(a: int, status: int)
      requires Valid() && a in words
      modifies `readyQ, `state, `words, `softBlockCount, asl, asl.table
      modifies Nodes(table)`next, Nodes(table)`prev, Nodes(table)`semAdd, Nodes(table)`cpu
      ensures Valid() && Resume(state) == DeviceInterrupt(old(state), a) && state.current == old(state).current
      ensures var first := HeadBlocked(old(state).blocked, a);
              Saved() == if old(words)[a] < 0 && first.Some? then Told(old(Saved()), first.value, status)
                         else old(Saved())
    {
      var w := HelperVerhogen(a);
      if w != null {
        AddSoftBlocked(-1);
        Report(w, HeadBlocked(old(state).blocked, a).value, status);
      }
    }

    method Report(p: Pcb, ghost i: Pid, status: int)
      requires Valid() && p == table[i]
      modifies p`cpu
      ensures Valid() && Saved() == Told(old(Saved()), i, status)
    {
      Save(p, i, WithV0(p.cpu, status));
    }

    /** The time slice is over: the running process gives up the processor, to resume where
        it was interrupted. */
    method OnLocalTimer(saved: Cpu, timer: int) returns (v: Verdict, loaded: Option<Cpu>)
      requires Valid() && Running(state)
      modifies Repr()
      ensures Valid() && state == LocalTimer(old(state)) && v == Dispatch
      ensures loaded == DispatchedIn(state, Saved())
      ensures Saved() == Stopped(old(Saved()), old(state).current.value, saved, timer)
    {
      GiveUp(saved, timer);
      Enready(currentP, state.current.value);
      v, loaded := Scheduler();
    }

    method HelperUnblockProcess(a: int) returns (w: Pcb?)
      requires Valid() && a in words
      modifies `readyQ, `state, `softBlockCount, asl, asl.table
      modifies Nodes(table)`next, Nodes(table)`prev, Nodes(table)`semAdd
      ensures Valid() && state == TakenOff(old(state), a) && w == Ref(table, HeadBlocked(old(state).blocked, a))
    {
      w := RemoveBlockedHead(a);
      if w != null {
        AddSoftBlocked(-1);
      }
    }

    /** Wakes every waiter of the pseudo-clock and forgives its semaphore. */
    method OnPseudoClock(saved: Cpu) returns (v: Verdict, loaded: Option<Cpu>)
      requires Valid() && Ascending(state.blocked.descs) && CLOCK in words
      modifies Repr()
      ensures Valid() && state == ClockTick(old(state)) && v == VerdictIn(state) && Saved() == old(Saved())
      ensures loaded == if old(state).current.Some? then Some(saved) else DispatchedIn(state, Saved())
    {
      DrainKeepsCurrent(state);
      WakeAll();
      Store(CLOCK, 0);
      v, loaded := Resumed(saved);
    }

    method WakeAll()
      requires Valid() && Ascending(state.blocked.descs) && CLOCK in words
      modifies `readyQ, `state, `softBlockCount, asl, asl.table
      modifies Nodes(table)`next, Nodes(table)`prev, Nodes(table)`semAdd
      ensures Valid() && state == Drain(old(state), CLOCK) && CLOCK in words
    {
      ghost var t := state;
      ghost var goal := Drain(t, CLOCK);
      Separated();
      var w := HelperUnblockProcess(CLOCK);
      while w != null
        invariant Valid() && t in Draining(goal) && CLOCK in words
        invariant state == TakenOff(t, CLOCK) && w == Ref(table, HeadBlocked(t.blocked, CLOCK))
        decreases |QueueOf(t.blocked, CLOCK)|
      {
        w, t := WakeNext(w, t, goal);
      }
    }

    /** The body of the loop: the waiter joins the ready queue, and the next leaves the clock. */
    method WakeNext(w: Pcb, ghost t: Nucleus, ghost goal: Nucleus) returns (next: Pcb?, ghost t': Nucleus)
      requires Valid() && t in Draining(goal) && CLOCK in words
      requires state == TakenOff(t, CLOCK) && w == Ref(table, HeadBlocked(t.blocked, CLOCK))
      modifies `readyQ, `state, `softBlockCount, asl, asl.table
      modifies Nodes(table)`next, Nodes(table)`prev, Nodes(table)`semAdd
      ensures Valid() && t' in Draining(goal) && CLOCK in words
      ensures state == TakenOff(t', CLOCK) && next == Ref(table, HeadBlocked(t'.blocked, CLOCK))
      ensures |QueueOf(t'.blocked, CLOCK)| < |QueueOf(t.blocked, CLOCK)|
    {
      DrainGoesOn(t);
      UnblockedStands(t, CLOCK);
      Enready(w, FirstOr(t, CLOCK, 0));
      t' := state;
      Separated();
      next := HelperUnblockProcess(CLOCK);
    }

    // ---- the start

    /** main: all but one pcb free, that one running `test` on a stack from `ramTop` down, every
        device semaphore 0. The list of semaphores ends in a descriptor marked with an address
        that is no semaphore. */
    constructor Boot(pcbs: seq<Pcb>, semds: seq<Semd>, tailAddr: int, memory: map<int, int>, test: int, ramTop: int)
      requires Bootable(memory) && IsTable(pcbs) && |semds| == MAXPROC + 2 && Distinct(semds)
      requires tailAddr !in memory && tailAddr != NULL_ADDR
      modifies Nodes(pcbs), Descriptors(semds)
      ensures Valid() && state == Booted(memory)
      ensures table == pcbs && asl.table == Descriptors(semds) && fresh(pool) && fresh(asl)
      ensures currentP == table[0] && currentP.time == 0 && currentP.support == NULL_ADDR
      ensures currentP.cpu.pc == test && currentP.cpu.status == 0x0800_0004
      ensures forall r :: 0 <= r < 31 ==>
                currentP.cpu.reg[r] == if r == 24 then test else if r == 26 then ramTop else 0
    {
      table := pcbs;
      var list, chain := InitTables(pcbs, semds, tailAddr);
      asl, pool := list, chain;
      processCount, softBlockCount, readyQ, currentP := 0, 0, null, null;
      words := memory;
      new;
      Start(memory, test, ramTop);
    }

    method Start(ghost memory: map<int, int>, test: int, ramTop: int)
      requires Bootable(memory) && IsTable(table)
      requires readyQ == null && pool.free == table && pool.Valid() && asl.Valid() && asl.model == SemList([], MAXPROC)
      requires words == memory && processCount == softBlockCount == 0 && currentP == null
      requires asl.tailAddr !in memory && asl.tailAddr != NULL_ADDR
      modifies Repr()
      ensures Valid() && state == Booted(memory) && Saved()[0] == Context(StartState(test, ramTop), 0, NULL_ADDR)
    {
      state := Cleared(memory);
      AllFree(memory);
      ClearDevices(memory);
      StartFirst(memory, test, ramTop);
    }

    /** The first process. */
    method StartFirst(ghost memory: map<int, int>, test: int, ramTop: int)
      requires Valid() && Bootable(memory) && state == Cleared(memory).(sem := Booted(memory).sem)
      modifies Repr()
      ensures Valid() && state == Booted(memory) && Saved()[0] == Context(StartState(test, ramTop), 0, NULL_ADDR)
    {
      BootedInSteps(memory);
      ReadyFirst(test, ramTop);
      var _, _ := Scheduler();
    }

    method ReadyFirst(test: int, ramTop: int)
      requires Valid() && state.free != [] && state.free[0] == 0 && state.ready == [] && state.processCount == 0
      modifies Repr()
      ensures Valid() && state == Allocated(old(state)).(ready := [0], processCount := 1)
      ensures Saved()[0] == Context(StartState(test, ramTop), 0, NULL_ADDR)
    {
      Separated();
      FreeLess(state);
      FreeHeads();
      var first := AllocPcb();
      EnreadyFirst(first);
      Save(first, 0, StartState(test, ramTop));
    }

    method EnreadyFirst(first: Pcb)
      requires Valid() && first == table[0] && Stands(state, 0) == 0 && state.ready == [] && state.processCount == 0
      modifies `readyQ, `state, `processCount, Nodes(table)`next, Nodes(table)`prev
      ensures Valid() && state == old(state).(ready := [0], processCount := 1) && Saved() == old(Saved())
    {
      Enready(first, 0);
      AddProcesses(1);
    }

    lemma AllFree(memory: map<int, int>)
      requires IsTable(table) && readyQ == null && pool.free == table && pool.Valid()
      requires asl.Valid() && asl.model == SemList([], MAXPROC)
      requires asl.tailAddr !in memory && asl.tailAddr != NULL_ADDR
      ensures Cleared(memory) in Meanings(readyQ)
    {
      var s := Cleared(memory);
      assert At(table, s.free) == table;
      assert forall p: Pid :: s.free[p] == p;
      DistinctPositions(s.free);
      DistinctCounts<Pid>(s.free);
      forall p: Pid ensures Stands(s, p) <= 1 {}
      Fold(readyQ, s);
    }

    method ClearDevices(ghost memory: map<int, int>)
      requires Valid() && Bootable(memory) && state == Cleared(memory)
      modifies `words, `state
      ensures Valid() && state == Cleared(memory).(sem := Booted(memory).sem)
    {
      for i := 0 to 49
        invariant Valid() && state == Cleared(memory).(sem := words) && words.Keys == memory.Keys
        invariant forall a :: a in memory ==>
                    words[a] == if exists j: nat :: j < i && a == DeviceSem(j) then 0 else memory[a]
      {
        assert DeviceSem(i) in memory;
        Store(DeviceSem(i), 0);
      }
      assert words == Booted(memory).sem;
    }
  }
}
