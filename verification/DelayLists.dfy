/** The Active Delay List as a value (phase5/delayDaemon.c): the entries between the two
    dummies, in list order, and the processes that use it.

    `DelayDaemon` proves that the linked structure implements these functions. */
module DelayLists {
  const MAXSIGNEDINT := 0x7FFFFFFF
  const MICROSECONDS := 1000000

  datatype Entry<T> = Entry(wake: int, owner: T)

  // ---- the stored wake time

  newtype Word = x: int | -0x8000_0000 <= x < 0x8000_0000

  /** A 32-bit product, read as a signed integer. */
  function WakeTime(a1: Word): (t: int)
    ensures -0x8000_0000 <= t <= MAXSIGNEDINT
  {
    var low := (a1 as int * MICROSECONDS) % 0x1_0000_0000;
    if low < 0x8000_0000 then low else low - 0x1_0000_0000
  }

  /** No wake time is the mark of the tail dummy: the product is even, the mark is odd. */
  lemma WakeTimeIsNoSentinel(a1: Word)
    ensures WakeTime(a1) < MAXSIGNEDINT
  {
    var product := a1 as int * MICROSECONDS;
    var high := product / 0x1_0000_0000;
    assert product % 0x1_0000_0000 == 2 * (a1 as int * 500000 - high * 0x8000_0000);
  }

  /** The stored time is the microseconds asked for, modulo 2^32. */
  lemma WakeTimeWraps(a1: Word) returns (wraps: int)
    ensures a1 as int * 1000000 == WakeTime(a1) + 0x1_0000_0000 * wraps
  {
    wraps := a1 as int * MICROSECONDS / 0x1_0000_0000 + if WakeTime(a1) < 0 then 1 else 0;
  }

  /** Only up to 2147 seconds is the stored time the one asked for. Beyond, the product wraps. */
  lemma WakeTimeExactIff(a1: Word)
    ensures WakeTime(a1) == a1 as int * MICROSECONDS <==> -2147 <= a1 <= 2147
  {
  }

  /** A longer delay may be refused or be stored as an earlier time, and a negative one accepted. */
  lemma WakeTimeMayWrap()
    ensures WakeTime(2148) < 0 && WakeTime(4295) == 32704 && WakeTime(-2148) > 0
  {
  }

  // ---- the list

  predicate Sorted<T>(es: seq<Entry<T>>) {
    |es| < 2 || (es[0].wake <= es[1].wake && Sorted(es[1..]))
  }

  lemma {:induction false} SortedPairs<T>(es: seq<Entry<T>>)
    ensures Sorted(es) <==> forall i, j :: 0 <= i < j < |es| ==> es[i].wake <= es[j].wake
  {
    if |es| >= 2 {
      var t := es[1..];
      SortedPairs(t);
      if Sorted(es) {
        forall i, j | 0 <= i < j < |es| ensures es[i].wake <= es[j].wake {
          assert es[j] == t[j - 1];
          assert i > 0 ==> es[i] == t[i - 1];
          assert j > 1 ==> t[0].wake <= t[j - 1].wake;
        }
      }
      if forall i, j :: 0 <= i < j < |es| ==> es[i].wake <= es[j].wake {
        assert forall i :: 0 <= i < |t| ==> t[i] == es[i + 1];
      }
    }
  }

  /** How many entries the traversal passes: it stops at the first not earlier than `wake`. */
  function Place<T>(es: seq<Entry<T>>, wake: int): (k: nat)
    ensures k <= |es|
  {
    if es == [] || wake <= es[0].wake then 0 else 1 + Place(es[1..], wake)
  }

  lemma {:induction false} PlaceDivides<T>(es: seq<Entry<T>>, wake: int)
    ensures var k := Place(es, wake);
            && (forall i :: 0 <= i < k ==> es[i].wake < wake)
            && (k < |es| ==> wake <= es[k].wake)
  {
    if es != [] && es[0].wake < wake {
      PlaceDivides(es[1..], wake);
      var k := Place(es[1..], wake);
      forall i | 0 <= i < k + 1 ensures es[i].wake < wake {
        assert i > 0 ==> es[i] == es[1..][i - 1];
      }
    }
  }

  function Inserted<T>(es: seq<Entry<T>>, e: Entry<T>): seq<Entry<T>> {
    var k := Place(es, e.wake);
    es[..k] + [e] + es[k..]
  }

  lemma SpliceIsSorted<T>(es: seq<Entry<T>>, k: nat, e: Entry<T>, fs: seq<Entry<T>>)
    requires Sorted(es) && k <= |es| && fs == es[..k] + [e] + es[k..]
    requires forall i :: 0 <= i < k ==> es[i].wake <= e.wake
    requires forall i :: k <= i < |es| ==> e.wake <= es[i].wake
    ensures Sorted(fs)
  {
    SortedPairs(es);
    assert forall i {:trigger fs[i]} :: 0 <= i < |fs| ==>
      fs[i] == if i < k then es[i] else if i == k then e else es[i - 1];
    forall i, j | 0 <= i < j < |fs| ensures fs[i].wake <= fs[j].wake {}
    SortedPairs(fs);
  }

  /** From the place on, nothing is earlier. */
  lemma LaterAfter<T>(es: seq<Entry<T>>, wake: int)
    requires Sorted(es)
    ensures forall i :: 0 <= i < Place(es, wake) ==> es[i].wake < wake
    ensures forall i :: Place(es, wake) <= i < |es| ==> wake <= es[i].wake
  {
    PlaceDivides(es, wake);
    SortedPairs(es);
  }

  /** An insertion keeps the order and puts the entry before those of the same time. */
  lemma InsertedIsSorted<T>(es: seq<Entry<T>>, e: Entry<T>)
    requires Sorted(es)
    ensures Sorted(Inserted(es, e)) && Inserted(es, e)[Place(es, e.wake)] == e
  {
    var k := Place(es, e.wake);
    LaterAfter(es, e.wake);
    SpliceIsSorted(es, k, e, Inserted(es, e));
  }

  /** An insertion adds one entry and loses none. */
  lemma InsertedAddsOne<T>(es: seq<Entry<T>>, e: Entry<T>)
    ensures multiset(Inserted(es, e)) == multiset(es) + multiset{e}
  {
    var k := Place(es, e.wake);
    assert es == es[..k] + es[k..];
  }

  /** How many entries one pass wakes when its clock readings are `clock(i)`, `clock(i + 1)`, ...:
      the clock is read again after each. */
  function Due<T>(es: seq<Entry<T>>, clock: nat -> int, i: nat): (n: nat)
    ensures n <= |es|
  {
    if es == [] || es[0].wake > clock(i) then 0 else 1 + Due(es[1..], clock, i + 1)
  }

  ghost predicate NonDecreasing(clock: nat -> int) {
    forall i, j :: 0 <= i <= j ==> clock(i) <= clock(j)
  }

  /** Each entry woken is due at the reading that wakes it, and the first one left is not. */
  lemma {:induction false} NeverEarly<T>(es: seq<Entry<T>>, clock: nat -> int, i: nat)
    ensures var n := Due(es, clock, i);
            && (forall j {:trigger es[j]} :: 0 <= j < n ==> es[j].wake <= clock(i + j))
            && (n < |es| ==> es[n].wake > clock(i + n))
  {
    if es != [] && es[0].wake <= clock(i) {
      NeverEarly(es[1..], clock, i + 1);
      var n := Due(es[1..], clock, i + 1);
      forall j {:trigger es[j]} | 0 <= j < n + 1 ensures es[j].wake <= clock(i + j) {
        if j > 0 {
          assert es[j] == es[1..][j - 1];
          assert i + j == (i + 1) + (j - 1);
        }
      }
      if n + 1 < |es| {
        assert es[n + 1] == es[1..][n];
        assert i + (n + 1) == (i + 1) + n;
      }
    }
  }

  /** Up to entry `n`, the pass goes on exactly while the next entry is due. */
  lemma DueAt<T>(es: seq<Entry<T>>, clock: nat -> int, i: nat)
    requires i <= Due(es, clock, 0)
    ensures i < |es| ==> (i < Due(es, clock, 0) <==> es[i].wake <= clock(i))
  {
    NeverEarly(es, clock, 0);
    assert 0 + i == i;
  }

  /** With a clock that does not go back, one pass wakes exactly the entries that are due at
      its last reading. */
  lemma PassWakesTheDue<T>(es: seq<Entry<T>>, clock: nat -> int)
    requires Sorted(es) && NonDecreasing(clock)
    ensures var n := Due(es, clock, 0);
            forall j {:trigger es[j]} :: 0 <= j < |es| ==> (j < n <==> es[j].wake <= clock(n))
  {
    NeverEarly(es, clock, 0);
    SortedPairs(es);
    var n := Due(es, clock, 0);
    forall j | 0 <= j < |es| ensures j < n <==> es[j].wake <= clock(n) {
      if j < n {
        assert es[j].wake <= clock(0 + j) <= clock(n);
      } else {
        assert es[n].wake > clock(0 + n);
        assert es[j].wake >= es[n].wake;
      }
    }
  }

  /** The daemon looks past the entries, at the tail dummy, and finds it due. */
  predicate RunsOffTheEnd<T>(es: seq<Entry<T>>, clock: nat -> int) {
    Due(es, clock, 0) == |es| && MAXSIGNEDINT <= clock(|es|)
  }

  /** That happens exactly when each entry is due at its own reading, and the one after them
      is the greatest signed integer. */
  lemma RunsOffTheEndIff<T>(es: seq<Entry<T>>, clock: nat -> int)
    requires forall i :: clock(i) <= MAXSIGNEDINT
    ensures RunsOffTheEnd(es, clock) <==>
            (forall i :: 0 <= i < |es| ==> es[i].wake <= clock(i)) && clock(|es|) == MAXSIGNEDINT
  {
    NeverEarly(es, clock, 0);
    var n := Due(es, clock, 0);
    forall i | 0 <= i < n ensures es[i].wake <= clock(i) { assert es[i].wake <= clock(0 + i); }
    if n < |es| { assert es[n].wake > clock(0 + n); }
  }

  /** A clock that stands at that value is enough. */
  lemma StoppedClockRunsOff<T>(es: seq<Entry<T>>)
    requires forall i :: 0 <= i < |es| ==> es[i].wake <= MAXSIGNEDINT
    ensures RunsOffTheEnd(es, _ => MAXSIGNEDINT)
  {
    RunsOffTheEndIff(es, _ => MAXSIGNEDINT);
  }

  /** Of the readings the pass takes, it is the last that decides. */
  lemma LastReadingDecides<T>(es: seq<Entry<T>>, clock: nat -> int)
    requires forall i :: 0 <= i < |es| ==> es[i].wake < MAXSIGNEDINT
    requires forall i :: clock(i) <= MAXSIGNEDINT
    ensures RunsOffTheEnd(es, clock) <==> clock(Due(es, clock, 0)) == MAXSIGNEDINT
  {
    NeverEarly(es, clock, 0);
  }
}
