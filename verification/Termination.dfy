/** The recursion of helper_terminate_process (phase2/exceptions.c:173-203): reaping the
    subtrees of the children one by one, then the process itself, reaps its whole subtree. */
module Termination {
  import opened Sequences
  import opened SemaphoreLists
  import opened NucleusState
  import opened NucleusSteps

  /** Deaths add up: reaping `a` and then `b` is reaping both. */
  lemma ReapedTwice(s: Nucleus, a: set<Pid>, t: Nucleus, b: set<Pid>, u: Nucleus)
    requires Structured(s) && Reaped(s, a, t) && Reaped(t, b, u)
    ensures a !! b && Reaped(s, a + b, u)
  {
    ReapedLive(s, a, t);
    forall x | x in b ensures x !in a && x !in s.free { assert x in Live(t); }
    ReapedPlacesTwice(s, a, t, b, u);
    ReapedTableTwice(s, a, t, b, u);
    forall w | w in s.sem ensures u.sem[w] == AfterDeaths(s, a + b, w) {
      AfterDeathsTwice(s, a, t, b, w);
    }
  }

  lemma ReapedPlacesTwice(s: Nucleus, a: set<Pid>, t: Nucleus, b: set<Pid>, u: Nucleus)
    requires ReapedPlaces(s, a, t) && ReapedPlaces(t, b, u) && a !! b && forall x :: x in b ==> x !in s.free
    ensures ReapedPlaces(s, a + b, u)
  {
    WithoutTwice(s.ready, a, b);
    forall i | 0 <= i < |s.blocked.descs| ensures u.blocked.descs[i] == WithoutAll(s.blocked, a + b).descs[i] {
      WithoutTwice(s.blocked.descs[i].queue, a, b);
    }
    assert u.blocked == WithoutAll(s.blocked, a + b);
    ReapedFreeTwice(s.free, a, t.free, b, u.free);
  }

  lemma ReapedFreeTwice(s: seq<Pid>, a: set<Pid>, t: seq<Pid>, b: set<Pid>, u: seq<Pid>)
    requires a !! b && |s| <= |t| <= |u| && t[|t| - |s|..] == s && u[|u| - |t|..] == t
    requires multiset(t) == multiset(s) + multiset(a) && multiset(u) == multiset(t) + multiset(b)
    ensures multiset(u) == multiset(s) + multiset(a + b) && u[|u| - |s|..] == s
  {
    assert multiset(a + b) == multiset(a) + multiset(b);
    assert u[|u| - |t|..][|t| - |s|..] == u[|u| - |s|..];
  }

  lemma ReapedTableTwice(s: Nucleus, a: set<Pid>, t: Nucleus, b: set<Pid>, u: Nucleus)
    requires ReapedTable(s, a, t) && ReapedTable(t, b, u) && Live(t) == Live(s) - a
    ensures ReapedTable(s, a + b, u)
  {
    forall x: Pid | x !in a + b && x !in s.free ensures Survives(s, a + b, u, x) {
      assert x in Live(t);
      assert Survives(s, a, t, x) && Survives(t, b, u, x);
      WithoutTwice(s.procs[x].kids, a, b);
    }
  }

  lemma AfterDeathsTwice(s: Nucleus, a: set<Pid>, t: Nucleus, b: set<Pid>, w: int)
    requires Listed(s) && w in s.sem && w in t.sem && t.sem[w] == AfterDeaths(s, a, w)
    requires t.blocked == WithoutAll(s.blocked, a)
    ensures AfterDeaths(t, b, w) == AfterDeaths(s, a + b, w)
  {
    WithoutAllQueue(s.blocked, a, w);
    WithoutTwice(QueueOf(s.blocked, w), a, b);
  }

  lemma DetachKeeps(s: Nucleus, rank: map<Pid, nat>, p: Pid)
    requires Structured(s) && Family(s, rank) && p !in s.free && s.procs[p].kids != []
    ensures var c := s.procs[p].kids[0];
            && Structured(Detach(s, p)) && Family(Detach(s, p), rank)
            && c != p && c !in s.free && s.procs[c].parent == Some(p) && rank[p] < rank[c]
  {
    FirstKid(s, rank, p);
    DetachStructured(s, p);
    DetachFamily(s, rank, p);
  }

  lemma FirstKid(s: Nucleus, rank: map<Pid, nat>, p: Pid)
    requires Family(s, rank) && p !in s.free && s.procs[p].kids != []
    ensures var c := s.procs[p].kids[0]; c != p && c !in s.free && s.procs[c].parent == Some(p) && rank[p] < rank[c]
  {
    assert Kin(s, rank, p) && Kin(s, rank, s.procs[p].kids[0]);
  }

  lemma DetachStructured(s: Nucleus, p: Pid)
    requires Structured(s) && s.procs[p].kids != [] && s.procs[p].kids[0] != p
    ensures Structured(Detach(s, p))
  {
    forall x: Pid ensures Spots(Detach(s, p), x) == Spots(s, x) {}
  }

  lemma DetachFamily(s: Nucleus, rank: map<Pid, nat>, p: Pid)
    requires Family(s, rank) && p !in s.free && s.procs[p].kids != []
    ensures Family(Detach(s, p), rank)
  {
    var kids := s.procs[p].kids;
    assert Kin(s, rank, p) && Kin(s, rank, kids[0]);
    forall x: Pid | x !in s.free ensures Kin(Detach(s, p), rank, x) {
      DetachKin(s, rank, p, x, Detach(s, p).procs);
    }
  }

  lemma DetachKin(s: Nucleus, rank: map<Pid, nat>, p: Pid, x: Pid, table: Table)
    requires Family(s, rank) && p !in s.free && x !in s.free && table == Detach(s, p).procs
    requires var kids := s.procs[p].kids; kids != [] && kids[0] != p && Distinct(kids[1..]) && kids[0] !in kids[1..]
    ensures Kin(s.(procs := table), rank, x)
  {
    var kids := s.procs[p].kids;
    var c := kids[0];
    assert Kin(s, rank, x) && Kin(s, rank, p);
    assert kids == [c] + kids[1..];
    assert forall y: Pid :: table[y].parent == if y == c then None else s.procs[y].parent;
    assert forall y: Pid :: table[y].kids == if y == p then kids[1..] else s.procs[y].kids;
  }

  /** Reaping a subtree whose root was first detached is reaping it where it was. */
  lemma ReapedDetached(s: Nucleus, p: Pid, gone: set<Pid>, t: Nucleus)
    requires s.procs[p].kids != [] && s.procs[p].kids[0] in gone && Reaped(Detach(s, p), gone, t)
    ensures Reaped(s, gone, t)
  {
    var d := Detach(s, p);
    assert forall a :: a in s.sem ==> AfterDeaths(d, gone, a) == AfterDeaths(s, gone, a);
    forall x: Pid | x !in gone && x !in s.free ensures Survives(s, gone, t, x) {
      assert Survives(d, gone, t, x);
    }
  }

  /** The subtrees `gone` of the first children of `p` are reaped. */
  ghost predicate Partial(s: Nucleus, p: Pid, gone: set<Pid>, t: Nucleus) {
    && Reaped(s, gone, t) && ClosedDown(s, gone) && p !in gone
    && (forall x :: x in gone ==> s.procs[x].parent == Some(p) || HasParentIn(s, x, gone))
  }

  lemma PartialKeeps(s: Nucleus, rank: map<Pid, nat>, p: Pid, gone: set<Pid>, t: Nucleus)
    requires Structured(s) && Family(s, rank) && p !in s.free && Partial(s, p, gone, t)
    ensures Structured(t) && Family(t, rank) && p !in t.free
  {
    ReapedStructured(s, gone, t);
    ReapedFamily(s, gone, t, rank);
    ReapedLive(s, gone, t);
    assert p in Live(t);
  }

  lemma PartialStart(s: Nucleus, p: Pid)
    requires Structured(s)
    ensures Partial(s, p, {}, s)
  {
    ReapedNobody(s);
  }

  lemma ReapedNobody(s: Nucleus)
    requires Structured(s)
    ensures Reaped(s, {}, s)
  {
    WithoutStrangers(s.ready, {});
    forall i | 0 <= i < |s.blocked.descs| ensures s.blocked.descs[i] == WithoutAll(s.blocked, {}).descs[i] {
      WithoutStrangers(s.blocked.descs[i].queue, {});
    }
    forall x: Pid | x !in s.free ensures Survives(s, {}, s, x) {
      WithoutStrangers(s.procs[x].kids, {});
    }
    forall a | a in s.sem ensures Without(QueueOf(s.blocked, a), {}) == QueueOf(s.blocked, a) {
      WithoutStrangers(QueueOf(s.blocked, a), {});
    }
  }

  lemma PartialStep(s: Nucleus, rank: map<Pid, nat>, p: Pid, gone: set<Pid>, t: Nucleus, more: set<Pid>, u: Nucleus)
    requires Structured(s) && Structured(t) && Family(t, rank) && p !in t.free
    requires Partial(s, p, gone, t) && t.procs[p].kids != []
    requires IsSubtree(Detach(t, p), t.procs[p].kids[0], more) && Reaped(Detach(t, p), more, u)
    ensures Partial(s, p, gone + more, u)
    ensures |u.procs[p].kids| < |t.procs[p].kids|
  {
    var c, d := t.procs[p].kids[0], Detach(t, p);
    DetachKeeps(t, rank, p);
    if p in more { RootRanksFirst(d, rank, c, more, p); }
    assert Survives(d, more, u, p);
    ReapedDetached(t, p, more, u);
    ReapedTwice(s, gone, t, more, u);
    PartialClosed(s, p, gone, t, more);
  }

  lemma PartialClosed(s: Nucleus, p: Pid, gone: set<Pid>, t: Nucleus, more: set<Pid>)
    requires Structured(s) && Reaped(s, gone, t) && ClosedDown(s, gone) && p !in more && t.procs[p].kids != []
    requires forall x :: x in gone ==> s.procs[x].parent == Some(p) || HasParentIn(s, x, gone)
    requires IsSubtree(Detach(t, p), t.procs[p].kids[0], more) && t.procs[t.procs[p].kids[0]].parent == Some(p)
    ensures ClosedDown(s, gone + more)
    ensures forall x :: x in gone + more ==> s.procs[x].parent == Some(p) || HasParentIn(s, x, gone + more)
  {
    ReapedLive(s, gone, t);
    forall x | x in more ensures Survives(s, gone, t, x) { assert x in Live(t); }
    forall x: Pid, y: Pid | x in more && y in s.procs[x].kids ensures y in gone + more {
      PartialChild(s, p, gone, t, more, x, y);
    }
    forall x | x in more ensures s.procs[x].parent == Some(p) || HasParentIn(s, x, gone + more) {
      PartialParent(s, p, gone, t, more, x);
    }
  }

  lemma PartialChild(s: Nucleus, p: Pid, gone: set<Pid>, t: Nucleus, more: set<Pid>, x: Pid, y: Pid)
    requires t.procs[p].kids != [] && x in more && x != p && Survives(s, gone, t, x) && y in s.procs[x].kids
    requires ClosedDown(Detach(t, p), more)
    ensures y in gone + more
  {
    WithoutMembers<Pid>(s.procs[x].kids, gone);
    if y !in gone { assert y in Detach(t, p).procs[x].kids; }
  }

  lemma PartialParent(s: Nucleus, p: Pid, gone: set<Pid>, t: Nucleus, more: set<Pid>, x: Pid)
    requires t.procs[p].kids != [] && x in more && Survives(s, gone, t, x)
    requires IsSubtree(Detach(t, p), t.procs[p].kids[0], more) && t.procs[t.procs[p].kids[0]].parent == Some(p)
    ensures s.procs[x].parent == Some(p) || HasParentIn(s, x, gone + more)
  {
    if x != t.procs[p].kids[0] { assert HasParentIn(Detach(t, p), x, more); }
  }

  // ---- the process itself

  lemma OutBlockedIsWithout(s: Nucleus, p: Pid)
    requires Structured(s) && p !in s.free
    ensures OutBlocked(s.blocked, s.procs[p].semAdd, p) == WithoutAll(s.blocked, {p})
  {
    var a := s.procs[p].semAdd;
    var m := OutBlocked(s.blocked, a, p);
    SpotOf(s, p);
    forall i | 0 <= i < |s.blocked.descs| ensures m.descs[i] == WithoutAll(s.blocked, {p}).descs[i] {
      if p in s.blocked.descs[i].queue {
        WaitingMember(s.blocked.descs, i);
        assert p in multiset(s.blocked.descs[i].queue);
        WaitsOnce(s.blocked.descs, i, Slot(s.blocked.descs, a), p);
      } else {
        WithoutStrangers(s.blocked.descs[i].queue, {p});
      }
    }
  }

  lemma QueueDistinct(s: Nucleus, a: int)
    requires Structured(s)
    ensures Distinct<Pid>(QueueOf(s.blocked, a))
  {
    forall x: Pid ensures multiset(QueueOf(s.blocked, a))[x] <= 1 {
      SpotOf(s, x);
      if Active(s.blocked, a) { WaitingMember(s.blocked.descs, Slot(s.blocked.descs, a)); }
    }
    DistinctCounts<Pid>(QueueOf(s.blocked, a));
  }

  lemma WaitsAtMostOnce(s: Nucleus, p: Pid, a: int)
    requires Structured(s) && p !in s.free
    ensures |Without<Pid>(QueueOf(s.blocked, a), {p})|
         == |QueueOf(s.blocked, a)| - if p in QueueOf(s.blocked, a) then 1 else 0
    ensures p in QueueOf(s.blocked, a) ==> a == s.procs[p].semAdd
  {
    if p in QueueOf(s.blocked, a) {
      SpotOf(s, p);
      QueueWaits(s.blocked, a, p);
      WaitsThere(s.blocked, a, s.procs[p].semAdd, p);
      QueueDistinct(s, a);
      WithoutMember<Pid>(QueueOf(s.blocked, a), p);
    } else {
      WithoutStrangers<Pid>(QueueOf(s.blocked, a), {p});
    }
  }

  lemma ReapOneReaps(s: Nucleus, rank: map<Pid, nat>, p: Pid)
    requires Structured(s) && Family(s, rank) && p !in s.free
    ensures Reaped(s, {p}, ReapOne(s, p))
  {
    var t := ReapOne(s, p);
    OutBlockedIsWithout(s, p);
    ReapOneParts(s, p);
    ReapOnePlaces(s, p, t);
    ReapOneSemaphores(s, p, t);
    forall x: Pid | x != p && x !in s.free ensures Survives(s, {p}, t, x) {
      ReapOneSurvives(s, rank, p, x);
    }
  }

  lemma ReapOneParts(s: Nucleus, p: Pid)
    ensures var t, u := ReapOne(s, p), Unqueue(s, p);
            && t.blocked == OutBlocked(s.blocked, s.procs[p].semAdd, p) && t.current == s.current
            && t.sem == u.sem && t.softBlock == u.softBlock && u.blocked == t.blocked
            && t.ready == Without<Pid>(s.ready, {p}) && t.free == [p] + s.free && t.processCount == s.processCount - 1
  {
    OrphanKeepsSemaphore(s, p);
  }

  lemma OrphanKeepsSemaphore(s: Nucleus, p: Pid)
    ensures var t := Orphan(s, p); t == s.(procs := t.procs) && t.procs[p].semAdd == s.procs[p].semAdd
  {
  }

  lemma ReapOnePlaces(s: Nucleus, p: Pid, t: Nucleus)
    requires p !in s.free && t.blocked == WithoutAll(s.blocked, {p}) && t.current == s.current
    requires t.ready == Without<Pid>(s.ready, {p}) && t.free == [p] + s.free && t.processCount == s.processCount - 1
    ensures ReapedPlaces(s, {p}, t)
  {
    assert t.free[1..] == s.free;
  }

  lemma ReapOneSemaphores(s: Nucleus, p: Pid, t: Nucleus)
    requires Structured(s) && p !in s.free
    requires var u := Unqueue(s, p); t.sem == u.sem && t.softBlock == u.softBlock && t.blocked == u.blocked
    ensures ReapedSemaphores(s, {p}, t)
  {
    forall a | a in s.sem ensures t.sem[a] == AfterDeaths(s, {p}, a) {
      WaitsAtMostOnce(s, p, a);
    }
    UnqueueSoft(s, p);
  }

  lemma ReapOneSurvives(s: Nucleus, rank: map<Pid, nat>, p: Pid, x: Pid)
    requires Family(s, rank) && p !in s.free && x !in s.free && x != p
    ensures Survives(s, {p}, ReapOne(s, p), x)
  {
    assert Kin(s, rank, x) && Kin(s, rank, p);
    assert ReapOne(s, p).procs == Orphan(s, p).procs;
    OrphanOthers(s, p, x);
    if p !in s.procs[x].kids { WithoutStrangers(s.procs[x].kids, {p}); }
  }

  /** Only the parent of `p` loses a child. */
  lemma OrphanOthers(s: Nucleus, p: Pid, x: Pid)
    requires x != p
    ensures Orphan(s, p).procs[x] == s.procs[x].(kids :=
              if s.procs[p].parent == Some(x) then Without<Pid>(s.procs[x].kids, {p}) else s.procs[x].kids)
  {
  }

  lemma UnqueueSoft(s: Nucleus, p: Pid)
    requires Structured(s) && p !in s.free
    ensures s.softBlock - Unqueue(s, p).softBlock == DeviceWaiters(s) - DeviceWaiters(Unqueue(s, p))
  {
    var a := s.procs[p].semAdd;
    if p in QueueOf(s.blocked, a) {
      WaitsAtMostOnce(s, p, a);
      OutTotals(s.blocked, a, p, DEVICE_BASE, DEVICE_LAST);
      OutIsWithout(s.blocked, a, p, a);
    }
  }

  lemma PartialEnd(s: Nucleus, rank: map<Pid, nat>, p: Pid, gone: set<Pid>, t: Nucleus)
    requires Structured(s) && Family(s, rank) && p !in s.free && Partial(s, p, gone, t) && t.procs[p].kids == []
    ensures IsSubtree(s, p, gone + {p}) && Reaped(s, gone + {p}, ReapOne(t, p)) && Listed(t)
  {
    PartialKeeps(s, rank, p, gone, t);
    ReapOneReaps(t, rank, p);
    ReapedTwice(s, gone, t, {p}, ReapOne(t, p));
    assert Survives(s, gone, t, p);
    PartialWhole(s, p, gone);
  }

  lemma PartialWhole(s: Nucleus, p: Pid, gone: set<Pid>)
    requires ClosedDown(s, gone) && p !in s.free && Without<Pid>(s.procs[p].kids, gone) == []
    requires forall x :: x in gone ==> x !in s.free && (s.procs[x].parent == Some(p) || HasParentIn(s, x, gone))
    ensures IsSubtree(s, p, gone + {p})
  {
    WithoutMembers<Pid>(s.procs[p].kids, gone);
  }

  // ---- a subtree is what its root is an ancestor of

  /** The `n`-th ancestor of `x`. */
  function Ancestor(procs: Table, x: Pid, n: nat): Option<Pid>
    decreases n
  {
    if n == 0 then Some(x)
    else match procs[x].parent
         case None => None
         case Some(q) => Ancestor(procs, q, n - 1)
  }

  lemma {:induction false} InsideByClimbing(s: Nucleus, rank: map<Pid, nat>, top: Pid, gone: set<Pid>, x: Pid)
    returns (n: nat)
    requires Family(s, rank) && IsSubtree(s, top, gone) && x in gone
    ensures Ancestor(s.procs, x, n) == Some(top)
    decreases rank[x]
  {
    if x == top {
      n := 0;
    } else {
      assert HasParentIn(s, x, gone) && Kin(s, rank, x);
      n := InsideByClimbing(s, rank, top, gone, s.procs[x].parent.value);
      n := n + 1;
    }
  }

  lemma {:induction false} ClimbingStaysInside(s: Nucleus, rank: map<Pid, nat>, top: Pid, gone: set<Pid>, x: Pid,
                                               n: nat)
    requires Family(s, rank) && IsSubtree(s, top, gone) && x !in s.free && Ancestor(s.procs, x, n) == Some(top)
    ensures x in gone
    decreases n
  {
    if n > 0 {
      var q := s.procs[x].parent.value;
      assert Kin(s, rank, x);
      ClimbingStaysInside(s, rank, top, gone, q, n - 1);
    }
  }

  /** The processes that die with `top` are exactly the live ones below it. */
  lemma SubtreeIsDescendants(s: Nucleus, top: Pid, gone: set<Pid>, x: Pid)
    requires Forest(s) && IsSubtree(s, top, gone) && x !in s.free
    ensures x in gone <==> exists n: nat :: Ancestor(s.procs, x, n) == Some(top)
  {
    var rank :| Family(s, rank);
    if x in gone {
      var n := InsideByClimbing(s, rank, top, gone, x);
    }
    if n: nat :| Ancestor(s.procs, x, n) == Some(top) {
      ClimbingStaysInside(s, rank, top, gone, x, n);
    }
  }
}
