/** Processes as pointers: process `p` of the nucleus is the pcb at place `p` of the static
    table, and queues, semaphore lists and trees of processes are those of their pcbs. */
module Pointers {
  import opened Sequences
  import opened SemaphoreLists
  import opened NucleusState
  import opened ProcessQueues
  import opened ActiveSemaphores

  ghost predicate IsTable(t: seq<Pcb>) { |t| == MAXPROC && Distinct(t) }

  /** The pcbs of the processes `ids`. */
  function At(t: seq<Pcb>, ids: seq<Pid>): (q: seq<Pcb>)
    requires |t| == MAXPROC
    ensures |q| == |ids| && forall i :: 0 <= i < |ids| ==> q[i] == t[ids[i]]
  {
    seq(|ids|, i requires 0 <= i < |ids| => t[ids[i]])
  }

  function Ref(t: seq<Pcb>, p: Option<Pid>): (r: Pcb?)
    requires |t| == MAXPROC
  {
    match p
    case None => null
    case Some(i) => t[i]
  }

  /** The same list, of pcbs. */
  function AtAll(t: seq<Pcb>, l: SemList<Pid>): (m: SemList<Pcb>)
    requires |t| == MAXPROC
    ensures |m.descs| == |l.descs| && m.spare == l.spare
    ensures forall i :: 0 <= i < |l.descs| ==> m.descs[i] == Desc(l.descs[i].addr, At(t, l.descs[i].queue))
  {
    SemList(seq(|l.descs|, i requires 0 <= i < |l.descs| => Desc(l.descs[i].addr, At(t, l.descs[i].queue))), l.spare)
  }

  lemma Different(t: seq<Pcb>, p: Pid, q: Pid)
    requires IsTable(t) && p != q
    ensures t[p] != t[q]
  {
    DistinctPositions(t);
  }

  lemma DifferentFrom(t: seq<Pcb>, p: Pid)
    requires IsTable(t)
    ensures forall q: Pid :: t[q] == t[p] ==> q == p
  {
    DistinctPositions(t);
  }

  lemma AtMember(t: seq<Pcb>, ids: seq<Pid>, p: Pid)
    requires IsTable(t)
    ensures t[p] in At(t, ids) <==> p in ids
  {
    DistinctPositions(t);
    if p in ids {
      var i :| 0 <= i < |ids| && ids[i] == p;
      assert At(t, ids)[i] == t[p];
    }
  }

  lemma AtMembers(t: seq<Pcb>, ids: seq<Pid>)
    requires IsTable(t)
    ensures forall p: Pid :: t[p] in At(t, ids) <==> p in ids
    ensures Nodes(At(t, ids)) <= Nodes(t)
  {
    forall p: Pid ensures t[p] in At(t, ids) <==> p in ids { AtMember(t, ids, p); }
  }

  lemma AtTail(t: seq<Pcb>, ids: seq<Pid>)
    requires |t| == MAXPROC && ids != []
    ensures At(t, ids)[1..] == At(t, ids[1..])
  {
  }

  lemma AtAppend(t: seq<Pcb>, ids: seq<Pid>, p: Pid)
    requires |t| == MAXPROC
    ensures At(t, ids + [p]) == At(t, ids) + [t[p]]
  {
  }

  lemma AtPush(t: seq<Pcb>, ids: seq<Pid>, p: Pid)
    requires |t| == MAXPROC
    ensures At(t, [p] + ids) == [t[p]] + At(t, ids)
  {
  }

  lemma {:induction false} AtWithout(t: seq<Pcb>, ids: seq<Pid>, p: Pid)
    requires IsTable(t)
    ensures At(t, Without(ids, {p})) == Without(At(t, ids), {t[p]})
  {
    if ids != [] {
      AtWithout(t, ids[1..], p);
      AtTail(t, ids);
      if ids[0] != p {
        Different(t, ids[0], p);
        AtPush(t, Without(ids[1..], {p}), ids[0]);
      }
    }
  }

  // ---- operations on lists commute with the passage to pcbs

  lemma {:induction false} SlotAt(t: seq<Pcb>, ds: seq<Desc<Pid>>, spare: nat, a: int)
    requires |t| == MAXPROC
    ensures Slot(AtAll(t, SemList(ds, spare)).descs, a) == Slot(ds, a)
  {
    if ds != [] {
      SlotAt(t, ds[1..], spare, a);
      assert AtAll(t, SemList(ds, spare)).descs[1..] == AtAll(t, SemList(ds[1..], spare)).descs;
    }
  }

  lemma AtQueueOf(t: seq<Pcb>, l: SemList<Pid>, a: int)
    requires |t| == MAXPROC
    ensures Active(AtAll(t, l), a) == Active(l, a) && CanBlock(AtAll(t, l), a) == CanBlock(l, a)
    ensures Slot(AtAll(t, l).descs, a) == Slot(l.descs, a)
    ensures QueueOf(AtAll(t, l), a) == At(t, QueueOf(l, a))
  {
    SlotAt(t, l.descs, l.spare, a);
  }

  lemma AtReplaced(t: seq<Pcb>, l: SemList<Pid>, k: nat, q: seq<Pid>)
    requires |t| == MAXPROC && k < |l.descs|
    ensures AtAll(t, l.(descs := l.descs[k := Desc(l.descs[k].addr, q)])).descs
         == AtAll(t, l).descs[k := Desc(l.descs[k].addr, At(t, q))]
  {
  }

  lemma AtSpliced(t: seq<Pcb>, l: SemList<Pid>, k: nat, d: Desc<Pid>, spare: nat)
    requires |t| == MAXPROC && k <= |l.descs|
    ensures AtAll(t, SemList(l.descs[..k] + [d] + l.descs[k..], spare)).descs
         == AtAll(t, l).descs[..k] + [Desc(d.addr, At(t, d.queue))] + AtAll(t, l).descs[k..]
  {
  }

  lemma AtCut(t: seq<Pcb>, l: SemList<Pid>, k: nat, spare: nat)
    requires |t| == MAXPROC && k < |l.descs|
    ensures AtAll(t, SemList(l.descs[..k] + l.descs[k + 1..], spare)).descs
         == AtAll(t, l).descs[..k] + AtAll(t, l).descs[k + 1..]
  {
  }

  lemma AtInsert(t: seq<Pcb>, l: SemList<Pid>, a: int, p: Pid)
    requires |t| == MAXPROC
    ensures AtAll(t, InsertBlocked(l, a, p)) == InsertBlocked(AtAll(t, l), a, t[p])
  {
    var k := Slot(l.descs, a);
    AtQueueOf(t, l, a);
    if Active(l, a) {
      AtReplaced(t, l, k, l.descs[k].queue + [p]);
      AtAppend(t, l.descs[k].queue, p);
    } else if l.spare > 0 {
      AtSpliced(t, l, k, Desc(a, [p]), l.spare - 1);
      assert [t[p]] == At(t, [p]);
    }
  }

  lemma AtRemove(t: seq<Pcb>, l: SemList<Pid>, a: int)
    requires |t| == MAXPROC
    ensures AtAll(t, RemoveBlocked(l, a)) == RemoveBlocked(AtAll(t, l), a)
  {
    var k := Slot(l.descs, a);
    AtQueueOf(t, l, a);
    if |QueueOf(l, a)| == 1 {
      AtCut(t, l, k, l.spare + 1);
    } else if QueueOf(l, a) != [] {
      AtReplaced(t, l, k, l.descs[k].queue[1..]);
      AtTail(t, l.descs[k].queue);
    }
  }

  lemma AtOut(t: seq<Pcb>, l: SemList<Pid>, a: int, p: Pid)
    requires IsTable(t)
    ensures AtAll(t, OutBlocked(l, a, p)) == OutBlocked(AtAll(t, l), a, t[p])
  {
    AtQueueOf(t, l, a);
    AtMember(t, QueueOf(l, a), p);
    if p in QueueOf(l, a) {
      AtReplaced(t, l, Slot(l.descs, a), Without(QueueOf(l, a), {p}));
      AtWithout(t, QueueOf(l, a), p);
    }
  }

  // ---- nobody is in two queues

  /** In how many queues a process stands. */
  ghost function Stands(s: Nucleus, p: Pid): nat {
    multiset(s.free)[p] + multiset(s.ready)[p] + Waiting(s.blocked.descs)[p]
  }

  ghost predicate Separate(s: Nucleus) {
    forall p: Pid :: Stands(s, p) <= 1
  }

  lemma ReadyMore(s: Nucleus, p: Pid)
    requires Separate(s) && Stands(s, p) == 0
    ensures Separate(s.(ready := s.ready + [p]))
  {
    var t := s.(ready := s.ready + [p]);
    forall x: Pid ensures Stands(t, x) <= 1 { assert Stands(s, x) <= 1; }
  }

  lemma FreeMore(s: Nucleus, p: Pid)
    requires Separate(s) && Stands(s, p) == 0
    ensures Separate(s.(free := [p] + s.free))
  {
    var t := s.(free := [p] + s.free);
    forall x: Pid ensures Stands(t, x) <= 1 { assert Stands(s, x) <= 1; }
  }

  /** The head of the ready queue stands nowhere once it has left. */
  lemma ReadyLess(s: Nucleus)
    requires Separate(s) && s.ready != []
    ensures Separate(s.(ready := s.ready[1..])) && Stands(s.(ready := s.ready[1..]), s.ready[0]) == 0
  {
    var t := s.(ready := s.ready[1..]);
    assert s.ready == [s.ready[0]] + t.ready;
    forall x: Pid ensures Stands(t, x) == Stands(s, x) - if x == s.ready[0] then 1 else 0 { assert Stands(s, x) <= 1; }
  }

  /** allocPcb: the first free pcb is nobody's. */
  function Allocated(s: Nucleus): Nucleus
    requires s.free != []
  {
    s.(free := s.free[1..], procs := s.procs[s.free[0] := Proc(None, [], NULL_ADDR)])
  }

  lemma FreeLess(s: Nucleus)
    requires Separate(s) && s.free != []
    ensures Separate(Allocated(s)) && Stands(Allocated(s), s.free[0]) == 0 && s.free[0] !in s.free[1..]
  {
    var t := Allocated(s);
    assert s.free == [s.free[0]] + t.free;
    forall x: Pid ensures Stands(t, x) == Stands(s, x) - if x == s.free[0] then 1 else 0 { assert Stands(s, x) <= 1; }
    CountOfMember(t.free, s.free[0]);
  }

  lemma ReadyWithout(s: Nucleus, p: Pid)
    requires Separate(s)
    ensures var t := s.(ready := Without(s.ready, {p}));
            Separate(t) && Stands(t, p) == multiset(s.free)[p] + Waiting(s.blocked.descs)[p]
  {
    var t := s.(ready := Without(s.ready, {p}));
    forall x: Pid ensures Stands(t, x) <= Stands(s, x) <= 1 { WithoutCount<Pid>(s.ready, {p}, x); }
    WithoutCount<Pid>(s.ready, {p}, p);
  }

  lemma BlockedMore(s: Nucleus, a: int, p: Pid)
    requires Separate(s) && Stands(s, p) == 0
    ensures Separate(s.(blocked := InsertBlocked(s.blocked, a, p)))
  {
    var t := s.(blocked := InsertBlocked(s.blocked, a, p));
    if CanBlock(s.blocked, a) { InsertTotals(s.blocked, a, p, 0, 0); }
    forall x: Pid ensures Stands(t, x) <= 1 { assert Stands(s, x) <= 1; }
  }

  /** The first waiter stands nowhere once it has left its semaphore. */
  lemma BlockedLess(s: Nucleus, a: int)
    requires Separate(s) && QueueOf(s.blocked, a) != []
    ensures var t := s.(blocked := RemoveBlocked(s.blocked, a));
            Separate(t) && Stands(t, QueueOf(s.blocked, a)[0]) == 0
    ensures QueueOf(s.blocked, a)[0] !in s.free
  {
    var t, w := s.(blocked := RemoveBlocked(s.blocked, a)), QueueOf(s.blocked, a)[0];
    RemoveTotals(s.blocked, a, 0, 0);
    forall x: Pid ensures Stands(t, x) == Stands(s, x) - if x == w then 1 else 0 { assert Stands(s, x) <= 1; }
    CountOfMember(s.free, w);
  }

  lemma BlockedWithout(s: Nucleus, a: int, p: Pid)
    requires Separate(s)
    ensures Separate(s.(blocked := OutBlocked(s.blocked, a, p)))
  {
    var m := OutBlocked(s.blocked, a, p);
    if p in QueueOf(s.blocked, a) {
      var k := Slot(s.blocked.descs, a);
      var _ := SplitReplace(s.blocked.descs, k, m.descs[k], 0, 0);
      forall x: Pid ensures Waiting(m.descs)[x] <= Waiting(s.blocked.descs)[x] {
        WithoutCount(s.blocked.descs[k].queue, {p}, x);
      }
    }
    forall x: Pid ensures Stands(s.(blocked := m), x) <= 1 { assert Stands(s, x) <= 1; }
  }

  lemma MembersAt(t: seq<Pcb>, l: SemList<Pid>, p: Pid)
    requires IsTable(t)
    ensures t[p] in Members(AtAll(t, l).descs) <==> Waiting(l.descs)[p] > 0
  {
    var m := AtAll(t, l);
    if t[p] in Members(m.descs) {
      var i :| 0 <= i < |m.descs| && t[p] in m.descs[i].queue;
      AtMember(t, l.descs[i].queue, p);
      WaitingMember(l.descs, i);
      CountOfMember(l.descs[i].queue, p);
    }
    if Waiting(l.descs)[p] > 0 {
      var i := WaitingWhere(l.descs, p);
      AtMember(t, l.descs[i].queue, p);
      assert t[p] in m.descs[i].queue;
    }
  }

  lemma MembersInTable(t: seq<Pcb>, l: SemList<Pid>)
    requires |t| == MAXPROC
    ensures Members(AtAll(t, l).descs) <= Nodes(t)
  {
  }

  /** Where a process is found: its pcb is in no other of the three. */
  ghost predicate Disjoint(t: seq<Pcb>, s: Nucleus)
    requires |t| == MAXPROC
  {
    var free, ready, waiting := Nodes(At(t, s.free)), Nodes(At(t, s.ready)), Members(AtAll(t, s.blocked).descs);
    free !! ready && free !! waiting && ready !! waiting && free + ready + waiting <= Nodes(t)
  }

  lemma SeparateIsDisjoint(t: seq<Pcb>, s: Nucleus)
    requires IsTable(t) && Separate(s)
    ensures Disjoint(t, s)
  {
    MembersInTable(t, s.blocked);
    AtMembers(t, s.free);
    AtMembers(t, s.ready);
    forall x | x in Nodes(t) ensures Once(t, s, x) {
      var p :| 0 <= p < |t| && t[p] == x;
      OneOfThree(t, s, p);
      assert Stands(s, p) <= 1;
    }
    OnceIsDisjoint(t, s);
  }

  ghost predicate Once(t: seq<Pcb>, s: Nucleus, x: Pcb)
    requires |t| == MAXPROC
  {
    && (x in At(t, s.free) ==> x !in At(t, s.ready))
    && (x in Members(AtAll(t, s.blocked).descs) ==> x !in At(t, s.free) && x !in At(t, s.ready))
  }

  lemma OnceIsDisjoint(t: seq<Pcb>, s: Nucleus)
    requires |t| == MAXPROC && forall x :: x in Nodes(t) ==> Once(t, s, x)
    requires Nodes(At(t, s.free)) + Nodes(At(t, s.ready)) + Members(AtAll(t, s.blocked).descs) <= Nodes(t)
    ensures Disjoint(t, s)
  {
    forall x | x in Nodes(At(t, s.free)) + Nodes(At(t, s.ready)) + Members(AtAll(t, s.blocked).descs)
      ensures Once(t, s, x)
    {
      assert x in Nodes(t);
    }
  }

  lemma OneOfThree(t: seq<Pcb>, s: Nucleus, p: Pid)
    requires IsTable(t)
    ensures t[p] in At(t, s.free) <==> multiset(s.free)[p] > 0
    ensures t[p] in At(t, s.ready) <==> multiset(s.ready)[p] > 0
    ensures t[p] in Members(AtAll(t, s.blocked).descs) <==> Waiting(s.blocked.descs)[p] > 0
  {
    AtMember(t, s.free, p);
    AtMember(t, s.ready, p);
    MembersAt(t, s.blocked, p);
    CountOfMember(s.free, p);
    CountOfMember(s.ready, p);
  }

  // ---- the process tree

  /** The pcb of `p` is linked to its parent and its children, and these are alive. */
  ghost predicate IsChildOf(t: seq<Pcb>, free: seq<Pid>, p: Pid, d: Proc)
    requires |t| == MAXPROC
    reads Nodes(t)`child, Nodes(t)`parent, Nodes(t)`nextSib, Nodes(t)`prevSib
  {
    IsFamily(t[p], At(t, d.kids)) && t[p].parent == Ref(t, d.parent) && forall c :: c in d.kids ==> c !in free
  }

  /** Every live pcb is linked like its process. */
  ghost predicate IsTree(t: seq<Pcb>, free: seq<Pid>, procs: Table)
    requires |t| == MAXPROC
    reads Nodes(t)`child, Nodes(t)`parent, Nodes(t)`nextSib, Nodes(t)`prevSib
  {
    forall p: Pid {:trigger IsChildOf(t, free, p, procs[p])} :: p !in free ==> IsChildOf(t, free, p, procs[p])
  }

  ghost predicate IsNamed(t: seq<Pcb>, p: Pid, d: Proc)
    requires |t| == MAXPROC
    reads Nodes(t)`semAdd
  {
    t[p].semAdd == d.semAdd
  }

  /** Every live pcb names the semaphore of its process. */
  ghost predicate Names(t: seq<Pcb>, free: seq<Pid>, procs: Table)
    requires |t| == MAXPROC
    reads Nodes(t)`semAdd
  {
    forall p: Pid {:trigger IsNamed(t, p, procs[p])} :: p !in free ==> IsNamed(t, p, procs[p])
  }

  /** The names of live processes other than `p`. */
  ghost predicate OtherNames(t: seq<Pcb>, free: seq<Pid>, procs: Table, p: Pid)
    requires |t| == MAXPROC
    reads OtherPcbs(t, p)`semAdd
  {
    forall x: Pid {:trigger procs[x]} :: x !in free && x != p ==> t[x].semAdd == procs[x].semAdd
  }

  lemma NamesOf(t: seq<Pcb>, free: seq<Pid>, procs: Table, p: Pid)
    requires IsTable(t) && Names(t, free, procs)
    ensures OtherNames(t, free, procs, p) && t[p] !in OtherPcbs(t, p) && (p !in free ==> t[p].semAdd == procs[p].semAdd)
  {
    DifferentFrom(t, p);
    forall x: Pid | x !in free ensures t[x].semAdd == procs[x].semAdd { assert IsNamed(t, x, procs[x]); }
  }

  lemma NamesBut(t: seq<Pcb>, free: seq<Pid>, procs: Table, p: Pid, procs': Table)
    requires |t| == MAXPROC && OtherNames(t, free, procs, p) && (p !in free ==> t[p].semAdd == procs'[p].semAdd)
    requires forall x: Pid :: x != p ==> procs'[x].semAdd == procs[x].semAdd
    ensures Names(t, free, procs')
  {
  }

  /** Children of different parents are different. */
  lemma KidsApart(t: seq<Pcb>, free: seq<Pid>, procs: Table, p: Pid, q: Pid)
    requires IsTable(t) && IsTree(t, free, procs) && p !in free && q !in free && p != q
    ensures Nodes(At(t, procs[p].kids)) !! Nodes(At(t, procs[q].kids))
  {
    Different(t, p, q);
    var a, b := At(t, procs[p].kids), At(t, procs[q].kids);
    assert IsChildOf(t, free, p, procs[p]) && IsChildOf(t, free, q, procs[q]);
    assert forall x :: x in a ==> x.parent == t[p];
    assert forall x :: x in b ==> x.parent == t[q];
  }

  ghost function OtherPcbs(t: seq<Pcb>, p: Pid): set<Pcb>
    requires |t| == MAXPROC
  {
    set x: int | 0 <= x < MAXPROC && x != p :: t[x]
  }

  ghost function OtherKids(t: seq<Pcb>, free: seq<Pid>, procs: Table, p: Pid): set<Pcb>
    requires |t| == MAXPROC
  {
    set x: int, c | 0 <= x < MAXPROC && x !in free && x != p && c in At(t, procs[x].kids) :: c
  }

  /** The families of live processes other than `p`. */
  ghost predicate OtherFamilies(t: seq<Pcb>, free: seq<Pid>, procs: Table, p: Pid)
    requires |t| == MAXPROC
    reads OtherPcbs(t, p)`child
    reads OtherKids(t, free, procs, p)`parent
    reads OtherKids(t, free, procs, p)`nextSib, OtherKids(t, free, procs, p)`prevSib
  {
    forall x: Pid {:trigger At(t, procs[x].kids)} :: x !in free && x != p ==> IsFamily(t[x], At(t, procs[x].kids))
  }

  lemma FamiliesOf(t: seq<Pcb>, free: seq<Pid>, procs: Table, p: Pid)
    requires |t| == MAXPROC && IsTree(t, free, procs)
    ensures OtherFamilies(t, free, procs, p)
  {
    forall x: Pid | x !in free ensures IsFamily(t[x], At(t, procs[x].kids)) {
      assert IsChildOf(t, free, x, procs[x]);
    }
  }

  lemma SameTree(t: seq<Pcb>, free: seq<Pid>, procs: Table, procs': Table)
    requires |t| == MAXPROC && IsTree(t, free, procs)
    requires forall p: Pid :: procs'[p].kids == procs[p].kids && procs'[p].parent == procs[p].parent
    ensures IsTree(t, free, procs')
  {
    forall p: Pid | p !in free ensures IsChildOf(t, free, p, procs'[p]) { assert IsChildOf(t, free, p, procs[p]); }
  }

  /** A pcb without a parent is nobody's child. */
  lemma OrphanIsNoChild(t: seq<Pcb>, free: seq<Pid>, procs: Table, p: Pid, q: Pid)
    requires IsTable(t) && IsTree(t, free, procs) && t[p].parent == null && q !in free
    ensures p !in procs[q].kids && t[p] !in At(t, procs[q].kids)
  {
    assert IsChildOf(t, free, q, procs[q]);
    AtMember(t, procs[q].kids, p);
  }

  lemma OrphanIsNobodys(t: seq<Pcb>, free: seq<Pid>, procs: Table, p: Pid, q: Pid)
    requires IsTable(t) && IsTree(t, free, procs) && t[p].parent == null && q !in free
    ensures t[p] !in At(t, procs[q].kids) && t[p] !in OtherKids(t, free, procs, q)
  {
    OrphanIsNoChild(t, free, procs, p, q);
    if t[p] in OtherKids(t, free, procs, q) {
      var x: Pid :| x !in free && x != q && t[p] in At(t, procs[x].kids);
      OrphanIsNoChild(t, free, procs, p, x);
    }
  }

  /** The family of `p` has no link in common with the others. */
  lemma KinApart(t: seq<Pcb>, free: seq<Pid>, procs: Table, p: Pid)
    requires IsTable(t) && IsTree(t, free, procs) && p !in free
    ensures t[p] !in OtherPcbs(t, p) && Nodes(At(t, procs[p].kids)) !! OtherKids(t, free, procs, p)
    ensures Nodes(At(t, procs[p].kids)) <= Nodes(t) && OtherFamilies(t, free, procs, p)
  {
    DifferentFrom(t, p);
    AtMembers(t, procs[p].kids);
    FamiliesOf(t, free, procs, p);
    forall c | c in OtherKids(t, free, procs, p) ensures c !in Nodes(At(t, procs[p].kids)) {
      var x: Pid :| x !in free && x != p && c in At(t, procs[x].kids);
      KidsApart(t, free, procs, p, x);
      assert c in Nodes(At(t, procs[x].kids));
    }
  }

  /** The pcbs of live processes, and of their children. */
  ghost function LivePcbs(t: seq<Pcb>, free: seq<Pid>, procs: Table): set<Pcb>
    requires |t| == MAXPROC
  {
    (set x: int | 0 <= x < MAXPROC && x !in free :: t[x])
    + (set x: int, c | 0 <= x < MAXPROC && x !in free && c in At(t, procs[x].kids) :: c)
  }

  /** No pcb of the tree is a free one. */
  lemma LiveApart(t: seq<Pcb>, free: seq<Pid>, procs: Table)
    requires IsTable(t) && IsTree(t, free, procs)
    ensures LivePcbs(t, free, procs) !! Nodes(At(t, free))
  {
    AtMembers(t, free);
    forall c | c in LivePcbs(t, free, procs) ensures c !in Nodes(At(t, free)) {
      if x: Pid :| x !in free && c in At(t, procs[x].kids) {
        assert IsChildOf(t, free, x, procs[x]);
        var y: Pid :| y in procs[x].kids && t[y] == c;
      }
    }
  }

  /** The tree and its names, as far as the live processes go. */
  ghost predicate LiveTree(t: seq<Pcb>, free: seq<Pid>, procs: Table)
    requires |t| == MAXPROC
    reads LivePcbs(t, free, procs)
  {
    forall p: Pid {:trigger procs[p]} :: p !in free ==>
      && IsFamily(t[p], At(t, procs[p].kids)) && t[p].parent == Ref(t, procs[p].parent)
      && t[p].semAdd == procs[p].semAdd && forall c :: c in procs[p].kids ==> c !in free
  }

  lemma TreeLives(t: seq<Pcb>, free: seq<Pid>, procs: Table)
    requires |t| == MAXPROC && IsTree(t, free, procs) && Names(t, free, procs)
    ensures LiveTree(t, free, procs)
  {
    forall p: Pid | p !in free ensures IsChildOf(t, free, p, procs[p]) && IsNamed(t, p, procs[p]) {}
  }

  lemma LiveTreeIsTree(t: seq<Pcb>, free: seq<Pid>, procs: Table)
    requires |t| == MAXPROC && LiveTree(t, free, procs)
    ensures IsTree(t, free, procs) && Names(t, free, procs)
  {
  }

  lemma LessTree(t: seq<Pcb>, free: seq<Pid>, procs: Table, p: Pid)
    requires IsTable(t) && IsTree(t, free, procs) && Names(t, free, procs) && t[p].parent == null
    ensures IsTree(t, [p] + free, procs) && Names(t, [p] + free, procs)
  {
    forall q: Pid | q !in [p] + free ensures IsChildOf(t, [p] + free, q, procs[q]) && IsNamed(t, q, procs[q]) {
      assert IsChildOf(t, free, q, procs[q]) && IsNamed(t, q, procs[q]);
      OrphanIsNoChild(t, free, procs, p, q);
    }
  }
}
