/** Every exception handler keeps the nucleus invariant. */
module NucleusSteps {
  import opened Sequences
  import opened SemaphoreLists
  import opened NucleusState

  /** The state while the running process has no place of its own. */
  function Vacated(s: Nucleus): Nucleus { s.(current := None) }

  ghost predicate Steady(s: Nucleus) { Balanced(s) && SoftBlocked(s) }

  ghost predicate SameKin(s: Nucleus, t: Nucleus) {
    && t.free == s.free
    && (forall p: Pid :: t.procs[p].parent == s.procs[p].parent && t.procs[p].kids == s.procs[p].kids)
  }

  lemma SameKinFamily(s: Nucleus, t: Nucleus, rank: map<Pid, nat>)
    requires Family(s, rank) && SameKin(s, t)
    ensures Family(t, rank)
  {
    forall p: Pid | p !in t.free ensures Kin(t, rank, p) {
      assert Kin(s, rank, p);
    }
  }

  lemma SameKinForest(s: Nucleus, t: Nucleus)
    requires Forest(s) && SameKin(s, t)
    ensures Forest(t)
  {
    var rank :| Family(s, rank);
    SameKinFamily(s, t, rank);
  }

  lemma SpotOf(s: Nucleus, p: Pid)
    requires Placed(s)
    ensures Spots(s, p) == 1
    ensures p in s.free <==> multiset(s.free)[p] == 1
    ensures p in s.ready <==> multiset(s.ready)[p] == 1
  {
  }

  // ---- scheduler

  lemma ScheduleKeeps(s: Nucleus)
    requires Structured(Vacated(s))
    ensures var t := Schedule(s); Structured(t) && SameKin(s, t)
    ensures var t := Schedule(s); t.current.Some? ==> t.current.value !in t.free
    ensures var t := Schedule(s); t.current.None? ==> t.ready == []
  {
    var v, t := Vacated(s), Schedule(s);
    if s.ready != [] {
      assert s.ready == [s.ready[0]] + s.ready[1..];
      SpotOf(v, s.ready[0]);
    }
    forall p: Pid ensures Spots(t, p) == 1 { SpotOf(v, p); }
  }

  // ---- blocking and releasing

  lemma AddKeeps(s: Nucleus, a: int, delta: int)
    requires Structured(s) && a in s.sem
    ensures var t := Add(s, a, delta);
            Structured(t) && SameKin(s, t) && Structured(Vacated(t)) == Structured(Vacated(s))
  {
    var t := Add(s, a, delta);
    forall p: Pid ensures Spots(t, p) == Spots(s, p) && Spots(Vacated(t), p) == Spots(Vacated(s), p) {}
  }

  /** `m` is `l` with `p` at the end of the queue of `a`. */
  ghost predicate Inserted(l: SemList<Pid>, a: int, p: Pid, m: SemList<Pid>) {
    && Ascending(m.descs) && |m.descs| + m.spare == |l.descs| + l.spare
    && (forall b :: QueueOf(m, b) == if b == a then QueueOf(l, a) + [p] else QueueOf(l, b))
    && (forall b :: Active(m, b) ==> Active(l, b) || b == a)
    && Waiting(m.descs) == Waiting(l.descs) + multiset{p}
    && Crowd(m.descs, DEVICE_BASE, DEVICE_LAST)
       == Crowd(l.descs, DEVICE_BASE, DEVICE_LAST) + if IsDevice(a) then 1 else 0
  }

  /** `m` is `l` with the head `p` of the queue of `a` taken out. */
  ghost predicate Removed(l: SemList<Pid>, a: int, p: Pid, m: SemList<Pid>) {
    && QueueOf(l, a) != [] && QueueOf(l, a)[0] == p
    && Ascending(m.descs) && |m.descs| + m.spare == |l.descs| + l.spare
    && (forall b :: QueueOf(m, b) == if b == a then QueueOf(l, a)[1..] else QueueOf(l, b))
    && (forall b :: Active(m, b) ==> Active(l, b))
    && Waiting(m.descs) + multiset{p} == Waiting(l.descs)
    && Crowd(m.descs, DEVICE_BASE, DEVICE_LAST) + (if IsDevice(a) then 1 else 0)
       == Crowd(l.descs, DEVICE_BASE, DEVICE_LAST)
  }

  lemma InsertMeets(l: SemList<Pid>, a: int, p: Pid)
    requires Ascending(l.descs) && CanBlock(l, a)
    ensures Inserted(l, a, p, InsertBlocked(l, a, p))
  {
    var m := InsertBlocked(l, a, p);
    InsertTotals(l, a, p, DEVICE_BASE, DEVICE_LAST);
    InsertIsAppend(l, a, p, a);
    forall b
      ensures QueueOf(m, b) == if b == a then QueueOf(l, a) + [p] else QueueOf(l, b)
      ensures Active(m, b) ==> Active(l, b) || b == a
    {
      InsertIsAppend(l, a, p, b);
    }
  }

  lemma RemoveMeets(l: SemList<Pid>, a: int)
    requires Ascending(l.descs) && QueueOf(l, a) != []
    ensures Removed(l, a, QueueOf(l, a)[0], RemoveBlocked(l, a))
  {
    var m := RemoveBlocked(l, a);
    RemoveTotals(l, a, DEVICE_BASE, DEVICE_LAST);
    RemoveIsTail(l, a, a);
    forall b
      ensures QueueOf(m, b) == if b == a then QueueOf(l, a)[1..] else QueueOf(l, b)
      ensures Active(m, b) ==> Active(l, b)
    {
      RemoveIsTail(l, a, b);
    }
  }

  /** A process that waits on `a` is not found on any other semaphore. */
  lemma WaitsThere(l: SemList<Pid>, a: int, b: int, p: Pid)
    requires Ascending(l.descs) && p in QueueOf(l, a) && p in QueueOf(l, b) && Waiting(l.descs)[p] <= 1
    ensures a == b
  {
    WaitsOnce(l.descs, Slot(l.descs, a), Slot(l.descs, b), p);
  }

  lemma QueueWaits(l: SemList<Pid>, a: int, p: Pid)
    requires p in QueueOf(l, a)
    ensures Waiting(l.descs)[p] > 0
  {
    WaitingMember(l.descs, Slot(l.descs, a));
    assert p in multiset(QueueOf(l, a));
  }

  lemma BlockKeeps(s: Nucleus, a: int)
    requires Structured(s) && s.current.Some? && s.current.value !in s.free && a in s.sem && CanBlock(s.blocked, a)
    ensures var t := Block(s, a); Structured(Vacated(t)) && SameKin(s, t)
  {
    InsertMeets(s.blocked, a, s.current.value);
    BlockKeepsAs(s, a, InsertBlocked(s.blocked, a, s.current.value));
  }

  lemma BlockKeepsAs(s: Nucleus, a: int, m: SemList<Pid>)
    requires Structured(s) && s.current.Some? && s.current.value !in s.free && a in s.sem
    requires Inserted(s.blocked, a, s.current.value, m)
    ensures Structured(Vacated(Asleep(s, s.current.value, a, m)))
  {
    var t := Vacated(Asleep(s, s.current.value, a, m));
    forall p: Pid ensures Spots(t, p) == 1 { SpotOf(s, p); }
    SpotOf(s, s.current.value);
    BlockLinks(s, a, s.current.value, m);
  }

  lemma BlockLinks(s: Nucleus, a: int, c: Pid, m: SemList<Pid>)
    requires Linked(s) && c !in s.free && Waiting(s.blocked.descs)[c] == 0 && Inserted(s.blocked, a, c, m)
    ensures Linked(Vacated(Asleep(s, c, a, m)))
  {
    var t := Vacated(Asleep(s, c, a, m));
    forall p: Pid | p !in t.free
      ensures if Waiting(t.blocked.descs)[p] == 0 then t.procs[p].semAdd == NULL_ADDR
              else p in QueueOf(t.blocked, t.procs[p].semAdd)
    {
      if p == c {
        assert c in QueueOf(m, a);
      } else if Waiting(s.blocked.descs)[p] != 0 {
        assert p in QueueOf(s.blocked, s.procs[p].semAdd);
      }
    }
  }

  lemma ReleaseKeeps(s: Nucleus, a: int)
    requires Structured(s)
    ensures var t := Release(s, a); Structured(t) && SameKin(s, t) && t.current == s.current
  {
    if QueueOf(s.blocked, a) != [] {
      RemoveMeets(s.blocked, a);
      ReleaseKeepsAs(s, a, QueueOf(s.blocked, a)[0], RemoveBlocked(s.blocked, a));
    }
  }

  lemma ReleaseKeepsAs(s: Nucleus, a: int, w: Pid, m: SemList<Pid>)
    requires Structured(s) && Removed(s.blocked, a, w, m)
    ensures Structured(Awake(s, w, m))
  {
    var t := Awake(s, w, m);
    QueueWaits(s.blocked, a, w);
    SpotOf(s, w);
    forall p: Pid ensures Spots(t, p) == 1 { SpotOf(s, p); }
    ReleaseLinks(s, a, w, m);
  }

  lemma ReleaseLinks(s: Nucleus, a: int, w: Pid, m: SemList<Pid>)
    requires Linked(s) && Removed(s.blocked, a, w, m) && Waiting(s.blocked.descs)[w] == 1
    ensures Linked(Awake(s, w, m))
  {
    var q := QueueOf(s.blocked, a);
    assert q == [w] + q[1..];
    forall p: Pid | p != w && p !in s.free && Waiting(s.blocked.descs)[p] != 0
      ensures p in QueueOf(m, s.procs[p].semAdd)
    {
      assert p in QueueOf(s.blocked, s.procs[p].semAdd);
    }
    assert forall p: Pid :: p != w ==> Waiting(m.descs)[p] == Waiting(s.blocked.descs)[p];
  }

  // ---- P, V and the waits

  lemma BlockSteady(s: Nucleus, a: int)
    requires Structured(s) && Steady(s) && s.current.Some? && a in s.sem && s.sem[a] <= 0 && CanBlock(s.blocked, a)
    ensures var t := Block(Add(s, a, -1), a); Steady(t.(softBlock := t.softBlock + if IsDevice(a) then 1 else 0))
  {
    InsertMeets(s.blocked, a, s.current.value);
    BlockSteadyAs(s, a, s.current.value, InsertBlocked(s.blocked, a, s.current.value));
  }

  lemma BlockSteadyAs(s: Nucleus, a: int, c: Pid, m: SemList<Pid>)
    requires Steady(s) && a in s.sem && s.sem[a] <= 0 && Inserted(s.blocked, a, c, m)
    ensures var t := Asleep(Add(s, a, -1), c, a, m); Steady(t.(softBlock := t.softBlock + if IsDevice(a) then 1 else 0))
  {
  }

  lemma YieldKeeps(s: Nucleus, u: Nucleus)
    requires Forest(s) && SameKin(s, u) && Structured(Vacated(u)) && Steady(u)
    ensures Inv(Schedule(u))
  {
    ScheduleKeeps(u);
    SameKinForest(s, Schedule(u));
  }

  lemma PasserenKeeps(s: Nucleus, a: int)
    requires Inv(s) && s.current.Some? && a in s.sem && !IsDevice(a)
    requires s.sem[a] <= 0 ==> CanBlock(s.blocked, a)
    ensures Inv(Passeren(s, a))
  {
    var t := Add(s, a, -1);
    AddKeeps(s, a, -1);
    SameKinForest(s, t);
    if t.sem[a] < 0 {
      BlockKeeps(t, a);
      BlockSteady(s, a);
      YieldKeeps(s, Block(t, a));
    }
  }

  lemma SoftKeeps(u: Nucleus, n: int)
    requires Structured(u)
    ensures Structured(u.(softBlock := n))
  {
    forall p: Pid ensures Spots(u.(softBlock := n), p) == Spots(u, p) {}
  }

  lemma WaitOnKeeps(s: Nucleus, a: int)
    requires Inv(s) && s.current.Some? && a in s.sem && IsDevice(a)
    requires CanBlock(s.blocked, a)
    ensures Inv(WaitOn(s, a))
  {
    AddKeeps(s, a, -1);
    BlockKeeps(Add(s, a, -1), a);
    BlockSteady(s, a);
    var u := Block(Add(s, a, -1), a);
    WaitOnKeepsAs(s, a, u);
    WaitOnBlocks(s, a);
  }

  lemma WaitOnBlocks(s: Nucleus, a: int)
    requires s.current.Some? && a in s.sem && s.sem[a] <= 0
    ensures var u := Block(Add(s, a, -1), a); WaitOn(s, a) == Schedule(u.(softBlock := u.softBlock + 1))
  {
  }

  lemma WaitOnKeepsAs(s: Nucleus, a: int, u: Nucleus)
    requires Forest(s) && SameKin(s, u) && Structured(Vacated(u)) && Steady(u.(softBlock := u.softBlock + 1))
    ensures Inv(Schedule(u.(softBlock := u.softBlock + 1)))
  {
    SoftKeeps(Vacated(u), u.softBlock + 1);
    YieldKeeps(s, u.(softBlock := u.softBlock + 1));
  }

  lemma ReleaseSteady(s: Nucleus, a: int)
    requires Structured(s) && Steady(s) && a in s.sem && s.sem[a] < 0
    ensures var t := Release(Add(s, a, 1), a);
            Steady(t.(softBlock := t.softBlock - if IsDevice(a) && QueueOf(s.blocked, a) != [] then 1 else 0))
  {
    if QueueOf(s.blocked, a) != [] {
      RemoveMeets(s.blocked, a);
      ReleaseSteadyAs(s, a, QueueOf(s.blocked, a)[0], RemoveBlocked(s.blocked, a));
    }
  }

  lemma ReleaseSteadyAs(s: Nucleus, a: int, w: Pid, m: SemList<Pid>)
    requires Steady(s) && a in s.sem && s.sem[a] < 0 && Removed(s.blocked, a, w, m)
    ensures var t := Awake(Add(s, a, 1), w, m); Steady(t.(softBlock := t.softBlock - if IsDevice(a) then 1 else 0))
  {
  }

  lemma VerhogenKeeps(s: Nucleus, a: int)
    requires Inv(s) && s.current.Some? && a in s.sem && !IsDevice(a)
    ensures Inv(Verhogen(s, a))
  {
    var t := Add(s, a, 1);
    AddKeeps(s, a, 1);
    if t.sem[a] <= 0 {
      ReleaseSteady(s, a);
      ReleaseKeeps(t, a);
    }
    SameKinForest(s, Verhogen(s, a));
  }

  lemma ResumeKeeps(s: Nucleus)
    requires Structured(s) && Steady(s) && Forest(s) && (s.current.Some? ==> s.current.value !in s.free)
    ensures Inv(Resume(s))
  {
    if s.current == None {
      ScheduleKeeps(s);
      SameKinForest(s, Schedule(s));
    }
  }

  lemma DeviceInterruptKeeps(s: Nucleus, a: int)
    requires Inv(s) && a in s.sem && IsDevice(a) && s.sem[a] < 0
    ensures Inv(DeviceInterrupt(s, a))
  {
    var t := Add(s, a, 1);
    AddKeeps(s, a, 1);
    ReleaseSteady(s, a);
    ReleaseKeeps(t, a);
    DeviceInterruptReleases(s, a);
    var r := Release(t, a);
    ReleasedKeeps(s, r, r.softBlock - if QueueOf(s.blocked, a) != [] then 1 else 0);
  }

  lemma DeviceInterruptReleases(s: Nucleus, a: int)
    requires a in s.sem && s.sem[a] < 0
    ensures var r := Release(Add(s, a, 1), a);
            DeviceInterrupt(s, a) == Resume(r.(softBlock := r.softBlock - if QueueOf(s.blocked, a) != [] then 1 else 0))
  {
  }

  lemma ReleasedKeeps(s: Nucleus, r: Nucleus, soft: int)
    requires Forest(s) && Structured(r) && SameKin(s, r) && Steady(r.(softBlock := soft))
    requires r.current.Some? ==> r.current.value !in r.free
    ensures Inv(Resume(r.(softBlock := soft)))
  {
    SoftKeeps(r, soft);
    SameKinForest(s, r.(softBlock := soft));
    ResumeKeeps(r.(softBlock := soft));
  }

  lemma LocalTimerKeeps(s: Nucleus)
    requires Inv(s) && s.current.Some?
    ensures Inv(LocalTimer(s))
  {
    var t := s.(ready := s.ready + [s.current.value]);
    forall p: Pid ensures Spots(Vacated(t), p) == 1 { SpotOf(s, p); }
    ScheduleKeeps(t);
    SameKinForest(s, Schedule(t));
  }

  // ---- the pseudo-clock

  /** What draining the waiters `q` of the clock makes of `s`. */
  ghost predicate Drained(s: Nucleus, q: seq<Pid>, t: Nucleus) {
    && Structured(t) && Steady(t) && SameKin(s, t) && t.sem == s.sem && t.current == s.current
    && t.ready == s.ready + q && s.softBlock - t.softBlock == |q|
  }

  lemma DrainOne(s: Nucleus)
    requires Structured(s) && Steady(s) && QueueOf(s.blocked, CLOCK) != []
    ensures var u := Unwait(Release(s, CLOCK));
            Drained(s, [QueueOf(s.blocked, CLOCK)[0]], u) && QueueOf(u.blocked, CLOCK) == QueueOf(s.blocked, CLOCK)[1..]
  {
    RemoveMeets(s.blocked, CLOCK);
    DrainOneAs(s, QueueOf(s.blocked, CLOCK)[0], RemoveBlocked(s.blocked, CLOCK));
  }

  lemma DrainOneAs(s: Nucleus, w: Pid, m: SemList<Pid>)
    requires Structured(s) && Steady(s) && Removed(s.blocked, CLOCK, w, m)
    ensures Drained(s, [w], Unwait(Awake(s, w, m)))
  {
    ReleaseKeepsAs(s, CLOCK, w, m);
    UnwaitStructured(Awake(s, w, m));
    DrainOneSteady(s, w, m);
  }

  lemma UnwaitStructured(t: Nucleus)
    requires Structured(t)
    ensures Structured(Unwait(t))
  {
    SoftKeeps(t, t.softBlock - 1);
  }

  lemma DrainOneSteady(s: Nucleus, w: Pid, m: SemList<Pid>)
    requires Steady(s) && Removed(s.blocked, CLOCK, w, m)
    ensures Steady(Unwait(Awake(s, w, m)))
  {
  }

  lemma DrainedTwice(s: Nucleus, w: Pid, u: Nucleus, q: seq<Pid>, t: Nucleus)
    requires Drained(s, [w], u) && Drained(u, q, t)
    ensures Drained(s, [w] + q, t)
  {
    assert s.ready + [w] + q == s.ready + ([w] + q);
  }

  /** The drain moves the whole queue of the clock, in order, to the end of the ready queue. */
  lemma {:induction false} DrainKeeps(s: Nucleus)
    requires Structured(s) && Steady(s)
    ensures var t := Drain(s, CLOCK);
            Drained(s, QueueOf(s.blocked, CLOCK), t) && QueueOf(t.blocked, CLOCK) == []
    decreases |QueueOf(s.blocked, CLOCK)|
  {
    var q := QueueOf(s.blocked, CLOCK);
    if q != [] {
      DrainOne(s);
      var u := Unwait(Release(s, CLOCK));
      DrainKeeps(u);
      assert q == [q[0]] + q[1..];
      DrainedTwice(s, q[0], u, q[1..], Drain(u, CLOCK));
    } else {
      assert s.ready + q == s.ready;
    }
  }

  lemma ClockTickKeeps(s: Nucleus)
    requires Inv(s)
    ensures Inv(ClockTick(s))
  {
    DrainKeeps(s);
    var d := Drain(s, CLOCK);
    ClearClock(d);
    var t := d.(sem := d.sem[CLOCK := 0]);
    SameKinForest(s, t);
    ResumeKeeps(t);
  }

  lemma ClearClock(d: Nucleus)
    requires Structured(d) && Steady(d) && QueueOf(d.blocked, CLOCK) == []
    ensures var t := d.(sem := d.sem[CLOCK := 0]); Structured(t) && Steady(t)
  {
    var t := d.(sem := d.sem[CLOCK := 0]);
    assert CLOCK == DeviceSem(48) && CLOCK in d.sem;
    forall p: Pid ensures Spots(t, p) == Spots(d, p) {}
  }

  // ---- creation

  lemma CreateProcessKeeps(s: Nucleus)
    requires Inv(s) && s.current.Some?
    ensures Inv(CreateProcess(s))
  {
    if s.free != [] {
      var rank :| Family(s, rank);
      AdoptStructured(s, s.current.value, s.free[0]);
      AdoptFamily(s, rank, s.current.value, s.free[0]);
    }
  }

  lemma AdoptStructured(s: Nucleus, c: Pid, n: Pid)
    requires Structured(s) && s.current == Some(c) && c !in s.free && s.free != [] && n == s.free[0]
    ensures Structured(Adopt(s, c, n)) && Live(Adopt(s, c, n)) == Live(s) + {n}
  {
    var t := Adopt(s, c, n);
    assert s.free == [n] + s.free[1..];
    SpotOf(s, n);
    forall p: Pid ensures Spots(t, p) == 1 && (p in t.free <==> p in s.free && p != n) { AdoptSpots(s, c, n, p); }
    assert Live(t) == Live(s) + {n};
    AdoptLinks(s, c, n);
  }

  lemma AdoptSpots(s: Nucleus, c: Pid, n: Pid, p: Pid)
    requires Placed(s) && s.current == Some(c) && c !in s.free && s.free != [] && n == s.free[0]
    ensures Spots(Adopt(s, c, n), p) == 1 && (p in s.free[1..] <==> p in s.free && p != n)
  {
    assert s.free == [n] + s.free[1..];
    SpotOf(s, p);
    CountOfMember<Pid>(s.free[1..], p);
  }

  lemma AdoptLinks(s: Nucleus, c: Pid, n: Pid)
    requires Linked(s) && Placed(s) && c !in s.free && s.free != [] && n == s.free[0]
    ensures Linked(Adopt(s, c, n))
  {
    var t := Adopt(s, c, n);
    assert s.free == [n] + s.free[1..];
    SpotOf(s, n);
    assert forall p: Pid :: t.procs[p].semAdd == if p == n then NULL_ADDR else s.procs[p].semAdd;
  }

  lemma AdoptFamily(s: Nucleus, rank: map<Pid, nat>, c: Pid, n: Pid)
    requires Placed(s) && Family(s, rank) && c !in s.free && s.free != [] && n == s.free[0]
    ensures Family(Adopt(s, c, n), rank[n := rank[c] + 1])
  {
    var t := Adopt(s, c, n);
    assert s.free == [n] + s.free[1..];
    SpotOf(s, n);
    forall p: Pid | p !in t.free ensures Kin(t, rank[n := rank[c] + 1], p) {
      AdoptKin(s, rank, c, n, p);
    }
  }

  lemma AdoptKin(s: Nucleus, rank: map<Pid, nat>, c: Pid, n: Pid, p: Pid)
    requires Family(s, rank) && c !in s.free && s.free != [] && n == s.free[0] && n !in s.free[1..]
    requires p !in s.free[1..]
    ensures Kin(Adopt(s, c, n), rank[n := rank[c] + 1], p)
  {
    var t := Adopt(s, c, n);
    assert s.free == [n] + s.free[1..];
    assert Kin(s, rank, c);
    if p != n {
      assert Kin(s, rank, p);
      if p == c {
        assert n !in s.procs[c].kids;
        DistinctSplice<Pid>(s.procs[c].kids, |s.procs[c].kids|, n);
        assert t.procs[c].kids == s.procs[c].kids[..|s.procs[c].kids|] + [n] + s.procs[c].kids[|s.procs[c].kids|..];
      }
    }
  }

  // ---- termination

  /** Members of a subtree rank no lower than its root. */
  lemma {:induction false} RootRanksFirst(s: Nucleus, rank: map<Pid, nat>, top: Pid, gone: set<Pid>, x: Pid)
    requires Family(s, rank) && IsSubtree(s, top, gone) && x in gone
    ensures rank[top] <= rank[x] && (x != top ==> rank[top] < rank[x])
    decreases rank[x]
  {
    if x != top {
      assert HasParentIn(s, x, gone) && Kin(s, rank, x);
      RootRanksFirst(s, rank, top, gone, s.procs[x].parent.value);
    }
  }

  lemma ReapedSpots(s: Nucleus, gone: set<Pid>, t: Nucleus, p: Pid)
    requires Placed(s) && Reaped(s, gone, t)
    ensures Spots(t, p) == 1
  {
    SpotOf(s, p);
    WithoutCount(s.ready, gone, p);
    WithoutAllCount(s.blocked, gone, p);
    CountOfMember(s.free, p);
    CountOfMember(t.free, p);
  }

  lemma ReapedLive(s: Nucleus, gone: set<Pid>, t: Nucleus)
    requires Reaped(s, gone, t)
    ensures Live(t) == Live(s) - gone && |Live(t)| == |Live(s)| - |gone|
  {
    forall p: Pid ensures p in t.free <==> p in s.free || p in gone {
      CountOfMember(s.free, p);
      CountOfMember(t.free, p);
    }
    assert gone <= Live(s);
    assert Live(t) + gone == Live(s);
  }

  lemma ReapedStructured(s: Nucleus, gone: set<Pid>, t: Nucleus)
    requires Structured(s) && Reaped(s, gone, t)
    ensures Structured(t)
  {
    forall p: Pid ensures Spots(t, p) == 1 { ReapedSpots(s, gone, t, p); }
    ReapedLive(s, gone, t);
    WithoutAllQueue(s.blocked, gone, 0);
    forall a ensures Active(t.blocked, a) ==> a in t.sem { WithoutAllQueue(s.blocked, gone, a); }
    ReapedLinks(s, gone, t);
  }

  lemma ReapedLinks(s: Nucleus, gone: set<Pid>, t: Nucleus)
    requires Linked(s) && Ascending(s.blocked.descs) && Live(t) == Live(s) - gone
    requires t.blocked == WithoutAll(s.blocked, gone) && ReapedTable(s, gone, t)
    ensures Linked(t)
  {
    forall p: Pid | p !in t.free
      ensures if Waiting(t.blocked.descs)[p] == 0 then t.procs[p].semAdd == NULL_ADDR
              else p in QueueOf(t.blocked, t.procs[p].semAdd)
    {
      assert p in Live(t);
      assert Survives(s, gone, t, p);
      WithoutAllCount(s.blocked, gone, p);
      WithoutAllQueue(s.blocked, gone, s.procs[p].semAdd);
      WithoutMembers<Pid>(QueueOf(s.blocked, s.procs[p].semAdd), gone);
    }
  }

  lemma ReapedFamily(s: Nucleus, gone: set<Pid>, t: Nucleus, rank: map<Pid, nat>)
    requires Family(s, rank) && ClosedDown(s, gone) && Reaped(s, gone, t)
    ensures Family(t, rank)
  {
    ReapedLive(s, gone, t);
    forall p: Pid | p !in t.free ensures Kin(t, rank, p) {
      assert p in Live(t);
      ReapedKin(s, gone, t, rank, p);
    }
  }

  lemma ReapedKin(s: Nucleus, gone: set<Pid>, t: Nucleus, rank: map<Pid, nat>, p: Pid)
    requires Family(s, rank) && ClosedDown(s, gone) && Live(t) == Live(s) - gone && p in Live(t)
    requires forall x: Pid :: x in Live(t) ==> Survives(s, gone, t, x)
    ensures Kin(t, rank, p)
  {
    assert Survives(s, gone, t, p) && Kin(s, rank, p);
    DistinctWithout<Pid>(s.procs[p].kids, gone);
    WithoutMembers<Pid>(s.procs[p].kids, gone);
    forall c | c in t.procs[p].kids ensures c !in t.free && t.procs[c].parent == Some(p) {
      assert c in Live(t);
    }
    if s.procs[p].parent.Some? {
      var q := s.procs[p].parent.value;
      assert q in Live(t);
      WithoutMembers<Pid>(s.procs[q].kids, gone);
    }
  }

  lemma ReapedSteady(s: Nucleus, gone: set<Pid>, t: Nucleus)
    requires Structured(s) && Steady(s) && Reaped(s, gone, t)
    ensures Steady(t)
  {
    forall a | a in s.sem
      ensures QueueOf(t.blocked, a) == Without(QueueOf(s.blocked, a), gone) && t.sem[a] == AfterDeaths(s, gone, a)
    {
      WithoutAllQueue(s.blocked, gone, a);
    }
  }

  lemma TerminateKeeps(s: Nucleus, gone: set<Pid>, t: Nucleus)
    requires Inv(s) && s.current.Some? && IsSubtree(s, s.current.value, gone) && Reaped(s, gone, t)
    ensures Inv(Schedule(t))
  {
    var rank :| Family(s, rank);
    ReapedStructured(s, gone, t);
    ReapedFamily(s, gone, t, rank);
    ReapedSteady(s, gone, t);
    ReapedLive(s, gone, t);
    VacateDead(t, s.current.value);
    YieldKeeps(t, t);
  }

  lemma VacateDead(t: Nucleus, c: Pid)
    requires Structured(t) && t.current == Some(c) && c !in Live(t)
    ensures Structured(Vacated(t))
  {
    forall p: Pid ensures Spots(Vacated(t), p) == Spots(t, p) {}
  }

  // ---- the start

  lemma BootedInv(memory: map<int, int>)
    requires Bootable(memory)
    ensures Inv(Booted(memory))
  {
    var s := Booted(memory);
    DistinctPositions(s.free);
    DistinctCounts<Pid>(s.free);
    forall p: Pid ensures Spots(s, p) == 1 && (p in s.free <==> p > 0) {
      if p > 0 { assert s.free[p - 1] == p; }
      CountOfMember(s.free, p);
    }
    assert Live(s) == {0};
    var everyone: set<Pid> := Live(s.(free := []));
    var rank: map<Pid, nat> := map p | p in everyone :: 0;
    assert Family(s, rank);
  }
}
