/** The delay facility over whole runs (phase5/delayDaemon.c): processes that call DELAY and
    block on their private semaphore, and a daemon that wakes those who are due. Insertion,
    the P that follows it, and the pass of the daemon are separate steps, in any order. */
module DelayRuns {
  import opened Sequences
  import opened DelayLists

  datatype Phase =
    | Running
    | Listed     // inserted, not yet at its P
    | Parked     // blocked by its P
    | Dead

  datatype Delays = Delays(list: seq<Entry<nat>>, spare: nat, phase: seq<Phase>, sem: seq<int>)

  datatype Event =
    | Call(caller: nat, a1: Word)
    | Park(parker: nat)
    | Pass(clock: nat -> int)

  ghost predicate Enabled(s: Delays, e: Event) {
    match e
    case Call(o, _) => o < |s.phase| && s.phase[o] == Running
    case Park(o) => o < |s.phase| && s.phase[o] == Listed
    case Pass(_) => true
  }

  /** The caller dies of a negative time, or when no descriptor is left; else it is listed. */
  function CallStep(s: Delays, o: nat, a1: Word): Delays
    requires o < |s.phase|
  {
    if WakeTime(a1) < 0 || s.spare == 0 then s.(phase := s.phase[o := Dead])
    else s.(list := Inserted(s.list, Entry(WakeTime(a1), o)), spare := s.spare - 1, phase := s.phase[o := Listed])
  }

  /** P on the private semaphore. */
  function ParkStep(s: Delays, o: nat): Delays
    requires o < |s.phase| == |s.sem|
  {
    s.(sem := s.sem[o := s.sem[o] - 1], phase := s.phase[o := if s.sem[o] - 1 < 0 then Parked else Running])
  }

  /** V on the private semaphore of `o`. */
  function Credit(sem: seq<int>, o: nat): seq<int>
    requires o < |sem|
  {
    sem[o := sem[o] + 1]
  }

  /** A V for the owner of each of the first `n` entries. */
  ghost function Credits(sem: seq<int>, es: seq<Entry<nat>>, n: nat): (r: seq<int>)
    requires n <= |es| && forall e :: e in es ==> e.owner < |sem|
    ensures |r| == |sem|
    decreases n
  {
    if n == 0 then sem else Credit(Credits(sem, es, n - 1), es[n - 1].owner)
  }

  /** The first entry leaves, and its owner gets a V. */
  function WakeFirst(s: Delays): Delays
    requires s.list != [] && s.list[0].owner < |s.phase| == |s.sem|
  {
    var o := s.list[0].owner;
    Delays(s.list[1..], s.spare + 1,
           if s.phase[o] == Parked then s.phase[o := Running] else s.phase,
           Credit(s.sem, o))
  }

  ghost predicate Owned(s: Delays) {
    |s.phase| == |s.sem| && forall e :: e in s.list ==> e.owner < |s.phase|
  }

  ghost function WakeFirsts(s: Delays, n: nat): (t: Delays)
    requires Owned(s) && n <= |s.list|
    ensures Owned(t) && t.list == s.list[n..] && |t.phase| == |s.phase|
    decreases n
  {
    if n == 0 then s else WakeFirsts(WakeFirst(s), n - 1)
  }

  /** Waking from the front credits the owners in the order of the list. */
  lemma {:induction false} WakeFirstsCredits(s: Delays, n: nat)
    requires Owned(s) && n <= |s.list|
    ensures var t := WakeFirsts(s, n); t.sem == Credits(s.sem, s.list, n) && t.spare == s.spare + n
    decreases n
  {
    if n > 0 {
      WakeFirstsCredits(WakeFirst(s), n - 1);
      CreditsFromFront(s.sem, s.list, n);
    }
  }

  lemma {:induction false} CreditsFromFront(sem: seq<int>, es: seq<Entry<nat>>, n: nat)
    requires 0 < n <= |es| && forall e :: e in es ==> e.owner < |sem|
    ensures Credits(sem, es, n) == Credits(Credit(sem, es[0].owner), es[1..], n - 1)
    decreases n
  {
    assert es == [es[0]] + es[1..];
    if n > 1 {
      CreditsFromFront(sem, es, n - 1);
      assert es[n - 1] == es[1..][n - 2];
    }
  }

  ghost function Step(s: Delays, e: Event): Delays
    requires Owned(s) && Enabled(s, e)
  {
    match e
    case Call(o, a1) => CallStep(s, o, a1)
    case Park(o) => ParkStep(s, o)
    case Pass(clock) => WakeFirsts(s, Due(s.list, clock, 0))
  }

  // ---- invariant

  function Owners(es: seq<Entry<nat>>): (os: seq<nat>)
    ensures |os| == |es| && forall i :: 0 <= i < |es| ==> os[i] == es[i].owner
  {
    if es == [] then [] else [es[0].owner] + Owners(es[1..])
  }

  /** In order, never at the mark of the tail, one entry per owner. */
  ghost predicate Shape(es: seq<Entry<nat>>) {
    && Sorted(es)
    && (forall i :: 0 <= i < |es| ==> 0 <= es[i].wake < MAXSIGNEDINT)
    && (forall i, j :: 0 <= i < j < |es| ==> es[i].owner != es[j].owner)
  }

  /** One entry per listed or parked process that has not been woken; the private semaphore
      is -1 exactly while its process is parked, 1 only when the V came before the P. */
  ghost predicate Sane(s: Delays, total: nat) {
    && Owned(s) && Shape(s.list) && |s.list| + s.spare == total
    && forall o :: 0 <= o < |s.phase| ==> Settled(s, o)
  }

  ghost predicate Listing(es: seq<Entry<nat>>, o: nat) {
    exists e :: e in es && e.owner == o
  }

  ghost predicate Settled(s: Delays, o: nat)
    requires o < |s.phase| == |s.sem|
  {
    match s.phase[o]
    case Running => s.sem[o] == 0 && !Listing(s.list, o)
    case Dead => s.sem[o] == 0 && !Listing(s.list, o)
    case Listed => s.sem[o] == if Listing(s.list, o) then 0 else 1
    case Parked => s.sem[o] == -1 && Listing(s.list, o)
  }

  /** DELAY ends its caller for a negative time or for want of a descriptor; else the caller has
      one entry more, with its own time, and one descriptor fewer is left. Nobody else and no
      semaphore changes. */
  lemma CallEffect(s: Delays, o: nat, a1: Word)
    requires Owned(s) && Enabled(s, Call(o, a1))
    ensures var t := Step(s, Call(o, a1));
            && t.sem == s.sem && |t.phase| == |s.phase|
            && (forall p :: 0 <= p < |s.phase| && p != o ==> t.phase[p] == s.phase[p])
            && if WakeTime(a1) < 0 || s.spare == 0
               then t.phase[o] == Dead && t.list == s.list && t.spare == s.spare
               else t.phase[o] == Listed && t.spare == s.spare - 1
                    && multiset(t.list) == multiset(s.list) + multiset{Entry(WakeTime(a1), o)}
  {
    InsertedAddsOne(s.list, Entry(WakeTime(a1), o));
  }

  /** The P that follows blocks the caller unless it has been woken already. */
  lemma ParkEffect(s: Delays, o: nat, total: nat)
    requires Sane(s, total) && Enabled(s, Park(o))
    ensures var t := Step(s, Park(o));
            && t.list == s.list && t.spare == s.spare && |t.phase| == |s.phase|
            && (forall p :: 0 <= p < |s.phase| && p != o ==> t.phase[p] == s.phase[p])
            && t.phase[o] == if Listing(s.list, o) then Parked else Running
  {
    assert Settled(s, o);
  }

  lemma ListingInserted(es: seq<Entry<nat>>, e: Entry<nat>, o: nat)
    ensures Listing(Inserted(es, e), o) <==> Listing(es, o) || o == e.owner
  {
    InsertedAddsOne(es, e);
    var fs := Inserted(es, e);
    forall x ensures x in fs <==> x in es || x == e {
      assert x in fs <==> x in multiset(fs);
      assert x in es <==> x in multiset(es);
    }
    assert e in fs;
  }

  /** A listed entry keeps the list in shape when its owner had none. */
  lemma InsertedInShape(es: seq<Entry<nat>>, e: Entry<nat>)
    requires Shape(es) && !Listing(es, e.owner) && 0 <= e.wake < MAXSIGNEDINT
    ensures Shape(Inserted(es, e))
  {
    InsertedIsSorted(es, e);
    assert forall i :: 0 <= i < |es| ==> es[i] in es;
    SplicedInShape(es, Place(es, e.wake), e);
  }

  lemma SplicedInShape(es: seq<Entry<nat>>, k: nat, e: Entry<nat>)
    requires k <= |es| && 0 <= e.wake < MAXSIGNEDINT
    requires forall i :: 0 <= i < |es| ==> 0 <= es[i].wake < MAXSIGNEDINT && es[i].owner != e.owner
    requires forall i, j :: 0 <= i < j < |es| ==> es[i].owner != es[j].owner
    ensures var fs := es[..k] + [e] + es[k..];
            && (forall i :: 0 <= i < |fs| ==> 0 <= fs[i].wake < MAXSIGNEDINT)
            && forall i, j :: 0 <= i < j < |fs| ==> fs[i].owner != fs[j].owner
  {
    var fs := es[..k] + [e] + es[k..];
    assert forall i {:trigger fs[i]} :: 0 <= i < |fs| ==>
      fs[i] == if i < k then es[i] else if i == k then e else es[i - 1];
  }

  lemma CallKeeps(s: Delays, o: nat, a1: Word, total: nat)
    requires Sane(s, total) && Enabled(s, Call(o, a1))
    ensures Sane(CallStep(s, o, a1), total)
  {
    var t, e := CallStep(s, o, a1), Entry(WakeTime(a1), o);
    assert Settled(s, o);
    if WakeTime(a1) >= 0 && s.spare > 0 {
      WakeTimeIsNoSentinel(a1);
      InsertedInShape(s.list, e);
      CallSettles(s, t, e);
    } else {
      forall p | 0 <= p < |t.phase| ensures Settled(t, p) {
        assert Settled(s, p);
      }
    }
  }

  lemma CallSettles(s: Delays, t: Delays, e: Entry<nat>)
    requires |s.phase| == |s.sem| && e.owner < |s.phase| && s.phase[e.owner] == Running
    requires t.list == Inserted(s.list, e) && t.phase == s.phase[e.owner := Listed] && t.sem == s.sem
    requires forall p :: 0 <= p < |s.phase| ==> Settled(s, p)
    ensures forall p :: 0 <= p < |t.phase| ==> Settled(t, p)
    ensures (forall x :: x in s.list ==> x.owner < |s.phase|) ==> forall x :: x in t.list ==> x.owner < |t.phase|
  {
    forall p | 0 <= p < |t.phase| ensures Settled(t, p) {
      assert Settled(s, p);
      ListingInserted(s.list, e, p);
    }
  }

  lemma ParkKeeps(s: Delays, o: nat, total: nat)
    requires Sane(s, total) && Enabled(s, Park(o))
    ensures Sane(ParkStep(s, o), total)
  {
    var t := ParkStep(s, o);
    forall p | 0 <= p < |t.phase| ensures Settled(t, p) {
      assert Settled(s, p);
    }
  }

  lemma WakeFirstKeeps(s: Delays, total: nat)
    requires Sane(s, total) && s.list != []
    ensures Sane(WakeFirst(s), total)
  {
    var t, first := WakeFirst(s), s.list[0];
    assert s.list == [first] + t.list;
    forall p | 0 <= p < |t.phase| ensures Settled(t, p) {
      assert Settled(s, p);
      assert first in s.list;
      if p != first.owner && Listing(s.list, p) {
        var e :| e in s.list && e.owner == p;
        assert e in t.list;
      }
    }
  }

  lemma {:induction false} WakeFirstsKeeps(s: Delays, n: nat, total: nat)
    requires Sane(s, total) && n <= |s.list|
    ensures Sane(WakeFirsts(s, n), total)
    decreases n
  {
    if n > 0 {
      WakeFirstKeeps(s, total);
      WakeFirstsKeeps(WakeFirst(s), n - 1, total);
    }
  }

  lemma StepKeeps(s: Delays, e: Event, total: nat)
    requires Sane(s, total) && Enabled(s, e)
    ensures Sane(Step(s, e), total)
  {
    match e
    case Call(o, a1) => CallKeeps(s, o, a1, total);
    case Park(o) => ParkKeeps(s, o, total);
    case Pass(clock) => WakeFirstsKeeps(s, Due(s.list, clock, 0), total);
  }

  /** initADL: an empty list, `total` unused descriptors, every private semaphore 0. */
  function Start(processes: nat, total: nat): Delays {
    Delays([], total, seq(processes, _ => Running), seq(processes, _ => 0))
  }

  ghost predicate Run(states: seq<Delays>, events: seq<Event>, processes: nat, total: nat) {
    && |states| == |events| + 1 && states[0] == Start(processes, total)
    && forall i :: 0 <= i < |events| ==>
         Owned(states[i]) && Enabled(states[i], events[i]) && states[i + 1] == Step(states[i], events[i])
  }

  /** The list is sorted and, with the pool, the whole table in every reachable state. */
  lemma {:induction false} RunKeeps(states: seq<Delays>, events: seq<Event>, processes: nat, total: nat, i: nat)
    requires Run(states, events, processes, total) && i < |states|
    ensures Sane(states[i], total) && |states[i].phase| == processes
  {
    if i == 0 {
      var s := Start(processes, total);
      assert forall o :: 0 <= o < processes ==> s.phase[o] == Running && Settled(s, o);
    } else {
      RunKeeps(states, events, processes, total, i - 1);
      StepKeeps(states[i - 1], events[i - 1], total);
    }
  }

  lemma FewOwners(s: Delays, o: nat, total: nat)
    requires Sane(s, total) && o < |s.phase| && !Listing(s.list, o)
    ensures |s.list| < |s.phase|
  {
    var os := set e | e in s.list :: e.owner;
    CountOwners(s.list);
    assert os + {o} <= Below(|s.phase|);
    NoMoreThan<int>(os + {o}, Below(|s.phase|));
  }

  lemma {:induction false} CountOwners(es: seq<Entry<nat>>)
    requires forall i, j :: 0 <= i < j < |es| ==> es[i].owner != es[j].owner
    ensures |set e | e in es :: e.owner| == |es|
  {
    if es != [] {
      CountOwners(es[1..]);
      assert es == [es[0]] + es[1..];
      assert (set e | e in es :: e.owner) == {es[0].owner} + set e | e in es[1..] :: e.owner;
    }
  }

  /** With no more processes than descriptors, a valid call is never refused: the caller is
      listed, at the stored time, in every reachable state. */
  lemma NeverRefused(states: seq<Delays>, events: seq<Event>, processes: nat, total: nat, i: nat)
    requires Run(states, events, processes, total) && i < |events| && processes <= total
    requires events[i].Call? && WakeTime(events[i].a1) >= 0
    ensures var o := events[i].caller;
            states[i + 1].phase[o] == Listed && Entry(WakeTime(events[i].a1), o) in states[i + 1].list
  {
    RunKeeps(states, events, processes, total, i);
    var s, o, e := states[i], events[i].caller, Entry(WakeTime(events[i].a1), events[i].caller);
    assert Settled(s, o);
    FewOwners(s, o, total);
    InsertedIsSorted(s.list, e);
  }

  lemma ListingFirst(es: seq<Entry<nat>>, n: nat, o: nat)
    requires 0 < n <= |es|
    ensures Listing(es[..n], o) <==> es[0].owner == o || Listing(es[1..][..n - 1], o)
  {
    assert es[..n] == [es[0]] + es[1..][..n - 1];
    assert es[0] in es[..n];
  }

  /** The owner of the first entry has no other. */
  lemma FirstIsOnly(es: seq<Entry<nat>>, n: nat)
    requires Shape(es) && 0 < n <= |es|
    ensures !Listing(es[1..][..n - 1], es[0].owner)
  {
    var fs := es[1..][..n - 1];
    assert forall i :: 0 <= i < |fs| ==> fs[i] == es[i + 1];
  }

  /** What waking `n` entries does to process `o`: nothing, unless one of them was its own. */
  lemma {:induction false} PassTouches(s: Delays, n: nat, o: nat, total: nat)
    requires Sane(s, total) && n <= |s.list| && o < |s.phase|
    ensures var t := WakeFirsts(s, n);
            if Listing(s.list[..n], o)
            then t.sem[o] == s.sem[o] + 1 && t.phase[o] == if s.phase[o] == Parked then Running else s.phase[o]
            else t.sem[o] == s.sem[o] && t.phase[o] == s.phase[o]
    decreases n
  {
    if n > 0 {
      WakeFirstKeeps(s, total);
      PassTouches(WakeFirst(s), n - 1, o, total);
      ListingFirst(s.list, n, o);
      FirstIsOnly(s.list, n);
      WakeFirstTouches(s, o);
      assert WakeFirsts(s, n) == WakeFirsts(WakeFirst(s), n - 1);
    }
  }

  lemma WakeFirstTouches(s: Delays, o: nat)
    requires Owned(s) && s.list != [] && o < |s.phase|
    ensures var t := WakeFirst(s);
            if s.list[0].owner == o
            then t.sem[o] == s.sem[o] + 1 && t.phase[o] == if s.phase[o] == Parked then Running else s.phase[o]
            else t.sem[o] == s.sem[o] && t.phase[o] == s.phase[o]
  {
  }

  /** Entry `j` is the only one of its owner. */
  lemma OneEntryEach(es: seq<Entry<nat>>, j: nat, n: nat)
    requires Shape(es) && j < |es| && n <= |es|
    ensures Listing(es[..n], es[j].owner) <==> j < n
    ensures j >= n ==> es[j] in es[n..]
  {
    if j < n {
      assert es[j] == es[..n][j];
    } else {
      assert es[n..][j - n] == es[j];
    }
  }

  /** A pass takes an entry off the list, with one V to its owner, exactly when its stored time
      is due at the last clock reading of the pass; an owner that is parked runs again. */
  lemma WokenExactlyWhenDue(s: Delays, clock: nat -> int, j: nat, total: nat)
    requires Sane(s, total) && NonDecreasing(clock) && j < |s.list|
    ensures var o, t := s.list[j].owner, Step(s, Pass(clock));
            o < |s.phase| == |t.phase| == |s.sem| == |t.sem| &&
            if s.list[j].wake <= clock(Due(s.list, clock, 0))
            then t.sem[o] == s.sem[o] + 1 && !Listing(t.list, o)
                 && t.phase[o] == if s.phase[o] == Parked then Running else s.phase[o]
            else t.sem[o] == s.sem[o] && t.phase[o] == s.phase[o] && s.list[j] in t.list
  {
    var n, o := Due(s.list, clock, 0), s.list[j].owner;
    assert s.list[j] in s.list;
    PassWakesTheDue(s.list, clock);
    PassTouches(s, n, o, total);
    OneEntryEach(s.list, j, n);
    WakeFirstsKeeps(s, n, total);
    if j < n { NotListedTwice(s.list, j, n); }
  }

  lemma NotListedTwice(es: seq<Entry<nat>>, j: nat, n: nat)
    requires Shape(es) && j < n <= |es|
    ensures !Listing(es[n..], es[j].owner)
  {
    assert forall i :: 0 <= i < |es[n..]| ==> es[n..][i] == es[n + i];
  }

  lemma EntryListed(es: seq<Entry<nat>>, n: nat, o: nat) returns (j: nat)
    requires n <= |es| && Listing(es[..n], o)
    ensures j < n && es[j].owner == o
  {
    var x :| x in es[..n] && x.owner == o;
    j :| 0 <= j < n && es[..n][j] == x;
  }

  /** Nothing but a pass that finds its entry due lets a parked process run again. */
  lemma OnlyADuePassWakes(s: Delays, e: Event, o: nat, total: nat) returns (j: nat)
    requires Sane(s, total) && Enabled(s, e) && o < |s.phase| && s.phase[o] == Parked
    requires Step(s, e).phase[o] != Parked
    ensures e.Pass? && j < |s.list| && s.list[j].owner == o && s.list[j].wake <= e.clock(j)
  {
    if e.Pass? {
      var n := Due(s.list, e.clock, 0);
      PassTouches(s, n, o, total);
      NeverEarly(s.list, e.clock, 0);
      j := EntryListed(s.list, n, o);
      assert s.list[j].wake <= e.clock(0 + j);
    }
  }

  // ---- each accepted call is answered by one V

  ghost function EntriesOf(es: seq<Entry<nat>>, o: nat): nat {
    if es == [] then 0 else (if es[0].owner == o then 1 else 0) + EntriesOf(es[1..], o)
  }

  /** `e` is a call of `o` that DELAY accepts. */
  ghost predicate Accepts(s: Delays, e: Event, o: nat) {
    e.Call? && e.caller == o && WakeTime(e.a1) >= 0 && s.spare > 0
  }

  /** The V's that `e` gives to `o`. */
  ghost function Vs(s: Delays, e: Event, o: nat): nat {
    if e.Pass? then EntriesOf(s.list[..Due(s.list, e.clock, 0)], o) else 0
  }

  ghost function CallsAccepted(states: seq<Delays>, events: seq<Event>, o: nat, n: nat): nat
    requires n <= |events| < |states|
  {
    if n == 0 then 0
    else CallsAccepted(states, events, o, n - 1) + if Accepts(states[n - 1], events[n - 1], o) then 1 else 0
  }

  ghost function VsGiven(states: seq<Delays>, events: seq<Event>, o: nat, n: nat): nat
    requires n <= |events| < |states|
  {
    if n == 0 then 0 else VsGiven(states, events, o, n - 1) + Vs(states[n - 1], events[n - 1], o)
  }

  ghost function PsTaken(events: seq<Event>, o: nat, n: nat): nat
    requires n <= |events|
  {
    if n == 0 then 0
    else PsTaken(events, o, n - 1) + if events[n - 1].Park? && events[n - 1].parker == o then 1 else 0
  }

  lemma {:induction false} EntriesJoin(es: seq<Entry<nat>>, fs: seq<Entry<nat>>, o: nat)
    ensures EntriesOf(es + fs, o) == EntriesOf(es, o) + EntriesOf(fs, o)
  {
    if es == [] {
      assert es + fs == fs;
    } else {
      assert (es + fs)[1..] == es[1..] + fs;
      EntriesJoin(es[1..], fs, o);
    }
  }

  lemma EntriesInserted(es: seq<Entry<nat>>, e: Entry<nat>, o: nat)
    ensures EntriesOf(Inserted(es, e), o) == EntriesOf(es, o) + if e.owner == o then 1 else 0
  {
    var k := Place(es, e.wake);
    assert es == es[..k] + es[k..];
    EntriesJoin(es[..k], es[k..], o);
    EntriesJoin(es[..k], [e], o);
    EntriesJoin(es[..k] + [e], es[k..], o);
  }

  lemma {:induction false} EntriesOfOwner(es: seq<Entry<nat>>, o: nat)
    requires Shape(es)
    ensures EntriesOf(es, o) == if Listing(es, o) then 1 else 0
  {
    if es != [] {
      assert es == [es[0]] + es[1..];
      assert Shape(es[1..]) by { SortedPairs(es); }
      EntriesOfOwner(es[1..], o);
      FirstIsOnly(es, |es|);
      assert es[1..][..|es| - 1] == es[1..];
    }
  }

  /** A step adds to the entries of `o` by its accepted call and takes off what gets a V. */
  lemma StepCounts(s: Delays, e: Event, o: nat, total: nat)
    requires Sane(s, total) && Enabled(s, e) && o < |s.phase|
    ensures var t := Step(s, e);
            && EntriesOf(t.list, o) + Vs(s, e, o) == EntriesOf(s.list, o) + (if Accepts(s, e, o) then 1 else 0)
            && |t.sem| == |s.sem| == |s.phase|
            && t.sem[o] == s.sem[o] + Vs(s, e, o) - if e.Park? && e.parker == o then 1 else 0
  {
    match e
    case Call(c, a1) =>
      if WakeTime(a1) >= 0 && s.spare > 0 { EntriesInserted(s.list, Entry(WakeTime(a1), c), o); }
    case Park(_) =>
    case Pass(clock) =>
      var n := Due(s.list, clock, 0);
      assert s.list == s.list[..n] + s.list[n..];
      EntriesJoin(s.list[..n], s.list[n..], o);
      PassTouches(s, n, o, total);
      WakeFirstsKeeps(s, n, total);
      ShapeOfFirst(s.list, n);
      EntriesOfOwner(s.list[..n], o);
  }

  lemma ShapeOfFirst(es: seq<Entry<nat>>, n: nat)
    requires Shape(es) && n <= |es|
    ensures Shape(es[..n])
  {
    SortedPairs(es);
    SortedPairs(es[..n]);
  }

  /** Each entry is woken exactly once: in every reachable state the V's given to a process are
      its accepted calls, less the one entry it may still have on the list; and its private
      semaphore is the V's given less the P's taken. */
  lemma {:induction false} EachWokenOnce(states: seq<Delays>, events: seq<Event>, processes: nat, total: nat,
                                         o: nat, n: nat)
    requires Run(states, events, processes, total) && n <= |events| && o < processes
    ensures VsGiven(states, events, o, n) + EntriesOf(states[n].list, o) == CallsAccepted(states, events, o, n)
    ensures EntriesOf(states[n].list, o) <= 1
    ensures |states[n].sem| == processes && states[n].sem[o] == VsGiven(states, events, o, n) - PsTaken(events, o, n)
  {
    RunKeeps(states, events, processes, total, n);
    EntriesOfOwner(states[n].list, o);
    if n > 0 {
      EachWokenOnce(states, events, processes, total, o, n - 1);
      RunKeeps(states, events, processes, total, n - 1);
      StepCounts(states[n - 1], events[n - 1], o, total);
    }
  }
}
