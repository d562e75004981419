/** Runs from boot that lose a process: it stands in no queue and does not run, because the
    failure of insertBlocked is ignored, or because a wait does not block its caller. They
    show that the guards of `SafeRuns` are needed, and that the bound on addresses is tight. */
module LostProcesses {
  import opened Sequences
  import opened SemaphoreLists
  import opened NucleusState
  import opened NucleusSteps
  import opened Runs
  import opened SafeRuns

  /** One interrupt that nobody awaited, and the wait that should have preceded it. */
  lemma UnsolicitedInterruptLoses(memory: map<int, int>) returns (states: seq<Nucleus>, events: seq<Event>)
    requires Bootable(memory)
    ensures Run(states, events) && states[0] == Booted(memory)
    ensures events == [Device(0), WaitIo(0)] && !Placed(states[2])
  {
    var s := Booted(memory);
    BootedInv(memory);
    assert DeviceSem(0) in memory;
    var t := DeviceInterrupt(s, DeviceSem(0));
    states, events := [s, t, WaitOn(t, DeviceSem(0))], [Device(0), WaitIo(0)];
    assert t == Add(s, DeviceSem(0), 1);
    AddKeeps(s, DeviceSem(0), 1);
    LostUnlessBlocked(t, DeviceSem(0));
  }

  // ---- a semaphore that was waited on and whose only waiter was killed keeps a descriptor

  /** The first process alone, `n` descriptors emptied. */
  ghost function Alone(memory: map<int, int>, addrs: seq<int>, n: nat): Nucleus
    requires n <= |addrs| && n <= MAXPROC
  {
    Booted(memory).(blocked := SemList(Emptied(addrs[..n]), MAXPROC - n))
  }

  function Emptied(addrs: seq<int>): (ds: seq<Desc<Pid>>)
    ensures |ds| == |addrs| && forall i :: 0 <= i < |addrs| ==> ds[i] == Desc(addrs[i], [])
  {
    seq(|addrs|, i requires 0 <= i < |addrs| => Desc(addrs[i], []))
  }

  /** Ascending addresses of process semaphores with value 0. */
  ghost predicate Idle(memory: map<int, int>, addrs: seq<int>) {
    && (forall i, j :: 0 <= i < j < |addrs| ==> addrs[i] < addrs[j])
    && (forall i :: 0 <= i < |addrs| ==> addrs[i] in memory && !IsDevice(addrs[i]) && memory[addrs[i]] == 0)
  }

  /** The process creates a child, the child a grandchild, the grandchild waits on `a`, and
      the child dies. */
  function Round(a: int): seq<Event> { [Create, Timer, Create, Timer, Timer, P(a), Terminate] }

  lemma EmptySlot(addrs: seq<int>, a: int)
    requires forall i :: 0 <= i < |addrs| ==> addrs[i] < a
    ensures Slot(Emptied(addrs), a) == |addrs|
  {
    SlotDivides(Emptied(addrs), a);
  }

  /** The state in which the grandchild 2 has gone to sleep on `a`, and the child 1 runs. */
  ghost function Asleep2(s: Nucleus, a: int): Nucleus
    requires MAXPROC >= 3 && |s.free| >= 2 && a in s.sem
  {
    Nucleus(s.free[2..], [0], Some(1),
            s.procs[0 := Proc(None, [1], NULL_ADDR)][1 := Proc(Some(0), [2], NULL_ADDR)][2 := Proc(Some(1), [], a)],
            InsertBlocked(s.blocked, a, 2), s.sem[a := -1], 3, 0)
  }

  ghost predicate OnlyRoot(s: Nucleus) {
    && MAXPROC >= 3 && |s.free| == MAXPROC - 1 && s.free[0] == 1 && s.free[1] == 2
    && 0 !in s.free && 1 !in s.free[2..] && 2 !in s.free[2..]
    && s.ready == [] && s.current == Some(0) && (forall p: Pid :: s.procs[p] == Proc(None, [], NULL_ADDR))
    && s.processCount == 1 && s.softBlock == 0
  }

  /** The first three events of a round: the child runs, and has a child of its own. */
  lemma RoundCreates(s: Nucleus) returns (states: seq<Nucleus>)
    requires OnlyRoot(s)
    ensures Run(states, [Create, Timer, Create]) && states[0] == s && states[3] == Created2(s)
  {
    var s1 := CreateProcess(s);
    var s2 := LocalTimer(s1);
    var s3 := CreateProcess(s2);
    states := [s, s1, s2, s3];
    assert s1.procs[0] == Proc(None, [1], NULL_ADDR) && s1.procs[1] == Proc(Some(0), [], NULL_ADDR);
    assert s2.free == s.free[1..] && s2.ready == [0] && s2.current == Some(1);
    assert s3.free == s.free[2..] && s3.ready == [0, 2];
    assert forall p: Pid :: s3.procs[p] == Created2(s).procs[p];
    assert s3.procs == Created2(s).procs;
  }

  ghost function Created2(s: Nucleus): Nucleus
    requires MAXPROC >= 3 && |s.free| >= 2
  {
    s.(free := s.free[2..], ready := [0, 2], current := Some(1), processCount := 3,
       procs := s.procs[0 := Proc(None, [1], NULL_ADDR)][1 := Proc(Some(0), [2], NULL_ADDR)]
                       [2 := Proc(Some(1), [], NULL_ADDR)])
  }

  /** The next three: the grandchild runs and goes to sleep. */
  lemma RoundSleeps(s: Nucleus, a: int) returns (states: seq<Nucleus>)
    requires OnlyRoot(s) && a in s.sem && !IsDevice(a) && s.sem[a] == 0 && CanBlock(s.blocked, a)
    ensures Run(states, [Timer, Timer, P(a)]) && states[0] == Created2(s) && states[3] == Asleep2(s, a)
  {
    var s3 := Created2(s);
    var s4 := LocalTimer(s3);
    var s5 := LocalTimer(s4);
    var s6 := Passeren(s5, a);
    states := [s3, s4, s5, s6];
    assert s5.current == Some(2) && s5.ready == [1, 0];
    assert forall p: Pid :: s6.procs[p] == Asleep2(s, a).procs[p];
    assert s6.procs == Asleep2(s, a).procs;
  }

  lemma {:induction false} EmptiedCrowd(addrs: seq<int>, lo: int, hi: int)
    ensures Crowd(Emptied(addrs), lo, hi) == 0 && Waiting(Emptied(addrs)) == multiset{}
  {
    if addrs != [] {
      assert Emptied(addrs)[1..] == Emptied(addrs[1..]);
      EmptiedCrowd(addrs[1..], lo, hi);
    }
  }

  lemma LastChildrenDie(gone: set<Pid>)
    requires MAXPROC >= 3 && gone == {1, 2}
    ensures Without<Pid>([1], gone) == [] && Without<Pid>([2], gone) == [] && Without<Pid>([], gone) == []
  {
    assert Without<Pid>([1], gone) == Without<Pid>([1][1..], gone);
    assert Without<Pid>([2], gone) == Without<Pid>([2][1..], gone);
  }

  /** The killed waiter repays its debt. */
  lemma RoundRepays(u: Nucleus, addrs: seq<int>, spare: nat, a: int, r: Nucleus)
    requires MAXPROC >= 3 && u.blocked == SemList(Emptied(addrs) + [Desc(a, [2])], spare)
    requires r.blocked == SemList(Emptied(addrs + [a]), spare) && (forall i :: 0 <= i < |addrs| ==> addrs[i] < a)
    requires a in u.sem && u.sem[a] == -1 && !IsDevice(a) && r.sem == u.sem[a := 0] && u.softBlock == r.softBlock
    ensures ReapedSemaphores(u, {1, 2}, r)
  {
    LastChildrenDie({1, 2});
    RoundQueues(addrs, spare, a);
    Split(Emptied(addrs), [Desc(a, [2])], DEVICE_BASE, DEVICE_LAST);
    EmptiedCrowd(addrs, DEVICE_BASE, DEVICE_LAST);
    EmptiedCrowd(addrs + [a], DEVICE_BASE, DEVICE_LAST);
  }

  lemma RoundQueues(addrs: seq<int>, spare: nat, a: int)
    requires MAXPROC >= 3 && forall i :: 0 <= i < |addrs| ==> addrs[i] < a
    ensures forall b :: QueueOf<Pid>(SemList(Emptied(addrs) + [Desc(a, [2])], spare), b) == if b == a then [2] else []
  {
    var ds: seq<Desc<Pid>> := Emptied(addrs) + [Desc(a, [2])];
    forall b ensures QueueOf(SemList(ds, spare), b) == if b == a then [2] else [] {
      SlotDivides(ds, b);
      assert ds[|addrs|] == Desc(a, [2]) && forall i :: 0 <= i < |addrs| ==> ds[i] == Desc(addrs[i], []);
    }
  }

  /** The seventh: the child and the grandchild die. */
  lemma RoundKills(s: Nucleus, addrs: seq<int>, spare: nat, a: int, t: Nucleus)
    requires OnlyRoot(s) && a in s.sem && !IsDevice(a) && s.sem[a] == 0
    requires s.blocked == SemList(Emptied(addrs), spare + 1) && (forall i :: 0 <= i < |addrs| ==> addrs[i] < a)
    requires t == s.(blocked := SemList(Emptied(addrs + [a]), spare))
    ensures Step(Asleep2(s, a), Terminate, t)
  {
    var u := Asleep2(s, a);
    var r := t.(ready := [0], current := Some(1));
    EmptySlot(addrs, a);
    assert u.blocked == SemList(Emptied(addrs) + [Desc(a, [2])], spare);
    RoundFrees(s, u, addrs, spare, a, r);
    RoundRepays(u, addrs, spare, a, r);
    assert Dies(u, {1, 2}, r) && t == Schedule(r);
  }

  /** The dead are the child and the grandchild; the first process is left alone. */
  lemma RoundFrees(s: Nucleus, u: Nucleus, addrs: seq<int>, spare: nat, a: int, r: Nucleus)
    requires OnlyRoot(s) && a in s.sem && u == Asleep2(s, a)
    requires u.blocked == SemList(Emptied(addrs) + [Desc(a, [2])], spare)
    requires r == s.(blocked := SemList(Emptied(addrs + [a]), spare), ready := [0], current := Some(1))
    ensures IsSubtree(u, 1, {1, 2}) && ReapedPlaces(u, {1, 2}, r) && ReapedTable(u, {1, 2}, r)
  {
    var gone: set<Pid> := {1, 2};
    assert s.free == [1, 2] + s.free[2..];
    LastChildrenDie(gone);
    assert WithoutAll(u.blocked, gone) == r.blocked;
  }

  // ---- the run

  lemma AloneIsOnlyRoot(memory: map<int, int>, addrs: seq<int>, n: nat)
    requires MAXPROC >= 3 && n <= |addrs| && n <= MAXPROC
    ensures OnlyRoot(Alone(memory, addrs, n))
  {
    var s := Alone(memory, addrs, n);
    assert forall i :: 0 <= i < |s.free[2..]| ==> s.free[2..][i] == i + 3;
  }

  /** One round adds one emptied descriptor and changes nothing else. */
  lemma OneRound(memory: map<int, int>, addrs: seq<int>, n: nat) returns (states: seq<Nucleus>)
    requires MAXPROC >= 3 && Bootable(memory) && Idle(memory, addrs) && n < |addrs| && n < MAXPROC
    ensures Run(states, Round(addrs[n])) && states[0] == Alone(memory, addrs, n)
    ensures states[7] == Alone(memory, addrs, n + 1)
  {
    var s, t, a := Alone(memory, addrs, n), Alone(memory, addrs, n + 1), addrs[n];
    AloneIsOnlyRoot(memory, addrs, n);
    assert addrs[..n + 1] == addrs[..n] + [a];
    var three := RoundCreates(s);
    var more := RoundSleeps(s, a);
    RoundKills(s, addrs[..n], MAXPROC - n - 1, a, t);
    states := three + more[1..] + [t];
    RoundJoins(three, more, t, a);
  }

  lemma RoundJoins(three: seq<Nucleus>, more: seq<Nucleus>, t: Nucleus, a: int)
    requires Run(three, [Create, Timer, Create]) && Run(more, [Timer, Timer, P(a)])
    requires three[3] == more[0] && Step(more[3], Terminate, t)
    ensures var states := three + more[1..] + [t]; Run(states, Round(a)) && states[0] == three[0] && states[7] == t
  {
    RunsJoin(three, [Create, Timer, Create], more, [Timer, Timer, P(a)]);
    RunEnds(three + more[1..], [Create, Timer, Create] + [Timer, Timer, P(a)], t, a);
  }

  lemma RunEnds(six: seq<Nucleus>, d: seq<Event>, t: Nucleus, a: int)
    requires d + [Terminate] == Round(a) && |d| == 6 && Run(six, d) && Step(six[6], Terminate, t)
    ensures Run(six + [t], Round(a))
  {
    RunGrows(six, d, Terminate, t);
  }

  lemma RunGrows(s: seq<Nucleus>, d: seq<Event>, e: Event, t: Nucleus)
    requires Run(s, d) && Step(s[|d|], e, t)
    ensures Run(s + [t], d + [e])
  {
    forall n | 0 <= n < |d| + 1 ensures Step((s + [t])[n], (d + [e])[n], (s + [t])[n + 1]) {
      if n < |d| { assert Step(s[n], d[n], s[n + 1]); }
    }
  }

  lemma RunsJoin(s: seq<Nucleus>, d: seq<Event>, t: seq<Nucleus>, e: seq<Event>)
    requires Run(s, d) && Run(t, e) && s[|d|] == t[0]
    ensures Run(s + t[1..], d + e) && (s + t[1..])[|d| + |e|] == t[|e|] && (s + t[1..])[0] == s[0]
  {
    var st, de := s + t[1..], d + e;
    forall n | 0 <= n < |de| ensures Step(st[n], de[n], st[n + 1]) {
      if n < |d| {
        assert Step(s[n], d[n], s[n + 1]);
      } else {
        assert Step(t[n - |d|], e[n - |d|], t[n - |d| + 1]);
        assert st[n] == t[n - |d|];
      }
    }
  }

  lemma {:induction false} Rounds(memory: map<int, int>, addrs: seq<int>, n: nat)
    returns (states: seq<Nucleus>, events: seq<Event>)
    requires MAXPROC >= 3 && Bootable(memory) && Idle(memory, addrs) && n <= |addrs| && n <= MAXPROC
    ensures Run(states, events) && states[0] == Booted(memory) && states[|events|] == Alone(memory, addrs, n)
    ensures forall k :: 0 <= k < |events| ==> Target(events[k]) in OneOf(addrs[..n]) && !events[k].Device?
  {
    if n == 0 {
      states, events := [Booted(memory)], [];
    } else {
      states, events := Rounds(memory, addrs, n - 1);
      var seven := OneRound(memory, addrs, n - 1);
      RunsJoin(states, events, seven, Round(addrs[n - 1]));
      var longer := events + Round(addrs[n - 1]);
      forall k | 0 <= k < |longer| ensures Target(longer[k]) in OneOf(addrs[..n]) && !longer[k].Device? {
        if k < |events| {
          assert longer[k] == events[k];
          OneOfGrows(addrs, n, Target(longer[k]));
        } else {
          assert longer[k] == Round(addrs[n - 1])[k - |events|];
          assert addrs[n - 1] in addrs[..n];
        }
      }
      states, events := states + seven[1..], longer;
    }
  }

  function OneOf(addrs: seq<int>): set<Option<int>> {
    {None} + set a | a in addrs :: Some(a)
  }

  lemma OneOfGrows(addrs: seq<int>, n: nat, t: Option<int>)
    requires 0 < n <= |addrs| && t in OneOf(addrs[..n - 1])
    ensures t in OneOf(addrs[..n])
  {
    if t.Some? {
      assert t.value in addrs[..n - 1];
      assert addrs[..n] == addrs[..n - 1] + [addrs[n - 1]];
    }
  }

  lemma {:induction false} CountAscending(addrs: seq<int>) returns (r: set<int>)
    requires forall i, j :: 0 <= i < j < |addrs| ==> addrs[i] < addrs[j]
    ensures |r| == |addrs| && forall a :: a in r <==> a in addrs
  {
    r := {};
    if addrs != [] {
      r := CountAscending(addrs[1..]);
      assert addrs == [addrs[0]] + addrs[1..];
      forall j | 0 <= j < |addrs| - 1 ensures addrs[1..][j] > addrs[0] { assert addrs[1..][j] == addrs[j + 1]; }
      assert addrs[0] !in r;
      r := r + {addrs[0]};
    }
  }

  /** One address more than there are descriptors is enough to lose the first process: MAXPROC
      rounds empty every descriptor, and then its own P finds none. */
  lemma OneAddressTooManyLoses(memory: map<int, int>, addrs: seq<int>)
    returns (used: set<int>, states: seq<Nucleus>, events: seq<Event>)
    requires MAXPROC >= 3 && Bootable(memory) && Idle(memory, addrs) && |addrs| == MAXPROC + 1
    ensures Run(states, events) && states[0] == Booted(memory) && Solicited(events)
    ensures |used| == MAXPROC + 1 && Used(used, events)
    ensures !Placed(states[|events|])
  {
    used := CountAscending(addrs);
    states, events := Rounds(memory, addrs, MAXPROC);
    var s, a := Alone(memory, addrs, MAXPROC), addrs[MAXPROC];
    AloneIsOnlyRoot(memory, addrs, MAXPROC);
    EmptySlot(addrs[..MAXPROC], a);
    assert !CanBlock(s.blocked, a);
    var t := Passeren(s, a);
    EmptiedCrowd(addrs[..MAXPROC], 0, 0);
    CountOfMember<Pid>(s.free, 0);
    assert Spots(t, 0) == 0;
    RunGrows(states, events, P(a), t);
    states, events := states + [t], events + [P(a)];
  }

  /** So the bound on the addresses is tight: there is such a memory, on any machine with room
      for the semaphores. */
  lemma BoundIsTight() returns (memory: map<int, int>, used: set<int>, states: seq<Nucleus>, events: seq<Event>)
    requires 3 <= MAXPROC <= 0x1000_0000
    ensures Bootable(memory) && Run(states, events) && states[0] == Booted(memory) && Solicited(events)
    ensures |used| == MAXPROC + 1 && Used(used, events)
    ensures !Placed(states[|events|])
  {
    var addrs;
    memory, addrs := RoomyMemory();
    used, states, events := OneAddressTooManyLoses(memory, addrs);
  }

  /** The device semaphores, and words for MAXPROC + 1 others below or above them. */
  lemma RoomyMemory() returns (memory: map<int, int>, addrs: seq<int>)
    requires MAXPROC <= 0x1000_0000
    ensures Bootable(memory) && Idle(memory, addrs) && |addrs| == MAXPROC + 1
  {
    addrs := RoomyWords();
    var devices := AllDeviceWords();
    var words := devices + set a | a in addrs;
    memory := map a | a in words :: 0;
    RoomyBoots(addrs, devices, memory);
  }

  lemma RoomyBoots(addrs: seq<int>, devices: set<int>, memory: map<int, int>)
    requires forall a :: a in devices <==> exists i: nat :: i <= 48 && a == DeviceSem(i)
    requires forall a :: a in memory <==> a in devices || a in addrs
    requires forall a :: a in memory ==> memory[a] == 0
    requires forall a :: a in addrs ==> 0 < a < NULL_ADDR && !IsDevice(a)
    ensures Bootable(memory)
  {
    forall i: nat | i <= 48 ensures DeviceSem(i) in memory { assert DeviceSem(i) in devices; }
  }

  lemma RoomyWords() returns (addrs: seq<int>)
    requires MAXPROC <= 0x1000_0000
    ensures |addrs| == MAXPROC + 1 && forall i, j :: 0 <= i < j < |addrs| ==> addrs[i] < addrs[j]
    ensures forall i :: 0 <= i < |addrs| ==> 0 < addrs[i] < NULL_ADDR && !IsDevice(addrs[i])
  {
    var base := if 4 * (MAXPROC + 2) < DEVICE_BASE then 0 else DEVICE_LAST;
    addrs := seq(MAXPROC + 1, i requires 0 <= i < MAXPROC + 1 => base + 4 * (i + 1));
  }

  lemma AllDeviceWords() returns (devices: set<int>)
    ensures forall a :: a in devices <==> exists i: nat :: i <= 48 && a == DeviceSem(i)
  {
    var n := 0;
    devices := {};
    while n < 49
      invariant n <= 49 && forall a :: a in devices <==> exists i: nat :: i < n && a == DeviceSem(i)
    {
      devices := devices + {DeviceSem(n)};
      n := n + 1;
    }
  }
}
