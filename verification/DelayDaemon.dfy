/** The delay facility as linked descriptors (phase5/delayDaemon.c): a sorted list between two
    dummies, shared by the callers of DELAY and the daemon, a pool of unused descriptors, and
    the private semaphores of the processes. `model` is the list as a value; every operation
    is the function of `DelayLists` or `DelayRuns` on it. */
module DelayDaemon {
  import opened Sequences
  import opened DelayLists
  import opened DelayRuns

  class Delayd {
    var next: Delayd?
    var wakeTime: int
    var support: Option<nat>    // whose support structure; None is NULL

    constructor () { next, wakeTime, support := null, 0, None; }
  }

  ghost function Descriptors(s: seq<Delayd>): set<Delayd> { set d | d in s }

  ghost predicate Linked(s: seq<Delayd>)
    reads Descriptors(s)`next
  {
    Distinct(s) && forall i {:trigger s[i].next} :: 0 <= i < |s| - 1 ==> s[i].next == s[i + 1]
  }

  /** The entries are in the descriptors between the dummies, and none bears the tail's mark. */
  ghost predicate Stores(path: seq<Delayd>, es: seq<Entry<nat>>)
    reads Descriptors(path)`wakeTime, Descriptors(path)`support
  {
    && |path| == |es| + 2 && Sorted(es)
    && path[|path| - 1].wakeTime == MAXSIGNEDINT && path[|path| - 1].support == None
    && forall i {:trigger es[i]} :: 0 <= i < |es| ==>
         path[i + 1].wakeTime == es[i].wake < MAXSIGNEDINT && path[i + 1].support == Some(es[i].owner)
  }

  /** The unused descriptors, from the first one on. */
  ghost predicate IsPool(first: Delayd?, pool: seq<Delayd>)
    reads Descriptors(pool)`next
  {
    && Linked(pool) && first == (if pool == [] then null else pool[0])
    && (pool != [] ==> pool[|pool| - 1].next == null)
  }

  lemma LinkedInserted(path: seq<Delayd>, k: nat, d: Delayd)
    requires k < |path| - 1 && Distinct(path) && d !in path && path[k].next == d && d.next == path[k + 1]
    requires forall i {:trigger path[i].next} :: 0 <= i < |path| - 1 && i != k ==> path[i].next == path[i + 1]
    ensures Linked(path[..k + 1] + [d] + path[k + 1..])
  {
    var t := path[..k + 1] + [d] + path[k + 1..];
    DistinctSplice(path, k + 1, d);
    assert forall i :: 0 <= i < |t| ==> t[i] == if i <= k then path[i] else if i == k + 1 then d else path[i - 1];
  }

  method Splice(d: Delayd, before: Delayd, ghost path: seq<Delayd>, ghost k: nat)
    requires Linked(path) && k < |path| - 1 && before == path[k] && d !in path
    modifies before`next, d`next
    ensures Linked(path[..k + 1] + [d] + path[k + 1..])
  {
    DistinctPositions(path);
    d.next := before.next;
    before.next := d;
    LinkedInserted(path, k, d);
  }

  /** The pool does not notice. */
  method SpliceAside(d: Delayd, before: Delayd, ghost path: seq<Delayd>, ghost k: nat,
                     ghost first: Delayd?, ghost pool: seq<Delayd>)
    requires Linked(path) && k < |path| - 1 && before == path[k] && d !in path
    requires IsPool(first, pool) && before !in pool && d !in pool
    modifies before`next, d`next
    ensures Linked(path[..k + 1] + [d] + path[k + 1..]) && IsPool(first, pool)
  {
    Splice(d, before, path, k);
  }

  lemma StoresSpliced(path: seq<Delayd>, es: seq<Entry<nat>>, k: nat, d: Delayd, e: Entry<nat>,
                      longer: seq<Delayd>, fs: seq<Entry<nat>>)
    requires Stores(path, es) && d.wakeTime == e.wake < MAXSIGNEDINT && d.support == Some(e.owner) && k <= |es|
    requires longer == path[..k + 1] + [d] + path[k + 1..] && fs == es[..k] + [e] + es[k..] && Sorted(fs)
    ensures Stores(longer, fs)
  {
    assert forall i {:trigger fs[i]} :: 0 <= i < |fs| ==>
      fs[i] == if i < k then es[i] else if i == k then e else es[i - 1];
  }

  /** The head dummy is linked past the first descriptor. */
  method Behead(head: Delayd, ghost path: seq<Delayd>) returns (first: Delayd)
    requires Linked(path) && |path| >= 3 && head == path[0]
    modifies head`next
    ensures Linked([path[0]] + path[2..]) && first == path[1] && first !in [path[0]] + path[2..]
  {
    DistinctPositions(path);
    DistinctCut(path, 1);
    first := head.next;
    head.next := first.next;
    ghost var t := [path[0]] + path[2..];
    assert t == path[..1] + path[2..];
    assert forall i :: 0 <= i < |t| ==> t[i] == if i == 0 then path[0] else path[i + 1];
  }

  method BeheadAside(head: Delayd, ghost path: seq<Delayd>, ghost free: Delayd?, ghost pool: seq<Delayd>)
    returns (first: Delayd)
    requires Linked(path) && |path| >= 3 && head == path[0] && IsPool(free, pool) && head !in pool
    modifies head`next
    ensures Linked([path[0]] + path[2..]) && first == path[1] && first !in [path[0]] + path[2..] && IsPool(free, pool)
  {
    first := Behead(head, path);
  }

  lemma StoresRest(path: seq<Delayd>, es: seq<Entry<nat>>)
    requires Stores(path, es) && es != []
    ensures Stores([path[0]] + path[2..], es[1..])
  {
    assert forall i {:trigger es[1..][i]} :: 0 <= i < |es| - 1 ==> es[1..][i] == es[i + 1];
  }

  datatype Outcome =
    | Queued
    | NegativeTime     // the caller is terminated
    | NoDescriptor     // the caller is terminated

  class DelayList {
    var head: Delayd?               // delayd_h, the head dummy
    var freeHead: Delayd?           // delaydFree_h
    var delaySem: seq<int>          // the private semaphore in each support structure
    ghost var path: seq<Delayd>     // head dummy, delayed processes, tail dummy
    ghost var pool: seq<Delayd>
    ghost var model: seq<Entry<nat>>
    ghost const table: set<Delayd>  // delaydTable

    /** List and pool are two separate chains; together they are the whole table. */
    ghost predicate Valid()
      reads `head, `freeHead, `path, `pool, `model
      reads Descriptors(path)`next, Descriptors(path)`wakeTime, Descriptors(path)`support, Descriptors(pool)`next
    {
      Chained() && table == Descriptors(path) + Descriptors(pool)
    }

    ghost predicate Chained()
      reads `head, `freeHead, `path, `pool, `model
      reads Descriptors(path)`next, Descriptors(path)`wakeTime, Descriptors(path)`support, Descriptors(pool)`next
    {
      && Stores(path, model) && Linked(path) && head == path[0]
      && IsPool(freeHead, pool) && forall d :: d in path ==> d !in pool
    }

    /** traverseADL: the last descriptor before the place of `wake`. */
    method TraverseAdl(wake: int) returns (before: Delayd, ghost k: nat)
      requires Chained()
      ensures k == Place(model, wake)
      ensures before == path[Place(model, wake)] && before.next == path[Place(model, wake) + 1]
    {
      before, k := head, 0;
      while before.next.wakeTime != MAXSIGNEDINT && before.next.wakeTime < wake
        invariant k <= |model| && before == path[k] && before.next == path[k + 1]
        invariant forall i :: 0 <= i < k ==> model[i].wake < wake
        decreases |model| - k
      {
        assert model[k].wake == path[k + 1].wakeTime;
        before := before.next;
        k := k + 1;
      }
      ghost var s := Place(model, wake);
      PlaceDivides(model, wake);
      if k < |model| {
        assert model[k].wake == path[k + 1].wakeTime;
        assert s <= k;
      }
      assert k <= s;
    }

    /** allocDelayd */
    method AllocDelayd(wake: int, owner: Option<nat>) returns (d: Delayd?)
      requires Chained()
      modifies this`freeHead, this`pool, Descriptors(pool)`next, Descriptors(pool)`wakeTime, Descriptors(pool)`support
      ensures Chained() && path == old(path) && model == old(model)
      ensures if old(pool) == [] then d == null && pool == [] else d == old(pool)[0] && pool == old(pool)[1..]
      ensures d != null ==> d !in path && d !in pool && d.wakeTime == wake && d.support == owner
    {
      if freeHead == null {
        return null;
      }
      d := freeHead;
      assert d == pool[0] && d in pool && d !in path;
      freeHead := freeHead.next;
      d.next, d.wakeTime, d.support := null, wake, owner;
      pool := pool[1..];
    }

    /** freeDelayd */
    method FreeDelayd(d: Delayd)
      requires Chained() && d !in path && d !in pool
      modifies this`freeHead, this`pool, d`next, d`wakeTime, d`support
      ensures Chained() && path == old(path) && model == old(model) && pool == [d] + old(pool)
    {
      d.support := None;
      d.next := freeHead;
      d.wakeTime := 0;
      freeHead := d;
      pool := [d] + pool;
    }

    /** The links have changed; path and model follow. */
    ghost method Rethread(newPath: seq<Delayd>, newModel: seq<Entry<nat>>)
      requires Stores(newPath, newModel) && Linked(newPath) && head == newPath[0]
      requires IsPool(freeHead, pool) && forall d :: d in newPath ==> d !in pool
      modifies this`path, this`model
      ensures Chained() && path == newPath && model == newModel
    {
      path, model := newPath, newModel;
    }

    /** Splices a filled descriptor in at place `k`. */
    method LinkIn(d: Delayd, before: Delayd, ghost e: Entry<nat>, ghost k: nat, ghost longer: seq<Entry<nat>>)
      requires Chained() && d !in path && d !in pool
      requires d.wakeTime == e.wake < MAXSIGNEDINT && d.support == Some(e.owner)
      requires k <= |model| && before == path[k] && longer == model[..k] + [e] + model[k..] && Sorted(longer)
      modifies this`path, this`model, before`next, d`next
      ensures Chained() && pool == old(pool) && model == longer
      ensures Descriptors(path) == Descriptors(old(path)) + {d}
    {
      ghost var newPath := path[..k + 1] + [d] + path[k + 1..];
      assert before in path;
      StoresSpliced(path, model, k, d, e, newPath, longer);
      PathGrown(path, k + 1, d);
      SpliceAside(d, before, path, k, freeHead, pool);
      Rethread(newPath, longer);
    }

    method PutInPlace(d: Delayd, wake: int, owner: nat)
      requires Chained() && d !in path && d !in pool && d.wakeTime == wake < MAXSIGNEDINT && d.support == Some(owner)
      modifies this`path, this`model, Descriptors(path)`next, d`next
      ensures Chained() && pool == old(pool) && model == Inserted(old(model), Entry(wake, owner))
      ensures Descriptors(path) == Descriptors(old(path)) + {d}
    {
      var before, k := TraverseAdl(wake);
      InsertedIsSorted(model, Entry(wake, owner));
      assert before in path;
      LinkIn(d, before, Entry(wake, owner), k, Inserted(model, Entry(wake, owner)));
    }

    /** A new entry in its place, unless every descriptor is in use. */
    method Enlist(wake: int, owner: nat) returns (full: bool)
      requires Valid() && wake < MAXSIGNEDINT
      modifies this`freeHead, this`pool, this`path, this`model, table`next, table`wakeTime, table`support
      ensures Valid() && full == (old(pool) == [])
      ensures if full then model == old(model) && pool == old(pool)
              else model == Inserted(old(model), Entry(wake, owner)) && pool == old(pool)[1..]
    {
      var d := AllocDelayd(wake, Some(owner));
      if d == null {
        return true;
      }
      assert old(pool) == [d] + pool;
      assert Descriptors(path) + Descriptors(pool) + {d} == table;
      PutInPlace(d, wake, owner);
      return false;
    }

    /** DELAY, up to and including the P on the caller's private semaphore: the caller is listed
        at the stored time, or terminated with the list as it was. */
    method Delay(caller: nat, a1: Word) returns (outcome: Outcome)
      requires Valid() && caller < |delaySem|
      modifies this`freeHead, this`pool, this`path, this`model, this`delaySem
      modifies table`next, table`wakeTime, table`support
      ensures Valid()
      ensures outcome == if WakeTime(a1) < 0 then NegativeTime else if old(pool) == [] then NoDescriptor else Queued
      ensures if outcome == Queued
              then model == Inserted(old(model), Entry(WakeTime(a1), caller)) && |pool| == |old(pool)| - 1
                   && delaySem == old(delaySem)[caller := old(delaySem)[caller] - 1]
              else model == old(model) && pool == old(pool) && delaySem == old(delaySem)
    {
      var wake := WakeTime(a1);
      WakeTimeIsNoSentinel(a1);
      if wake < 0 || wake > MAXSIGNEDINT {
        outcome := NegativeTime;
      } else {
        var full := Enlist(wake, caller);
        if full {
          outcome := NoDescriptor;
        } else {
          delaySem := delaySem[caller := delaySem[caller] - 1];
          outcome := Queued;
        }
      }
    }

    /** What the daemon's loop reads; the tail dummy bears the greatest time and no owner. */
    lemma FirstEntry()
      requires Valid()
      ensures head != null && head.next != null
      ensures head.next.wakeTime == if model == [] then MAXSIGNEDINT else model[0].wake
      ensures head.next.support == if model == [] then None else Some(model[0].owner)
    {
      if model != [] {
        assert path[1].wakeTime == model[0].wake && path[1].support == Some(model[0].owner);
      }
    }

    /** The body of the daemon's loop: the first entry leaves and its owner gets a V. */
    method WakeNext()
      requires Valid() && model != [] && model[0].owner < |delaySem|
      modifies this`freeHead, this`pool, this`path, this`model, this`delaySem
      modifies table`next, table`wakeTime, table`support
      ensures Valid() && model == old(model)[1..] && |pool| == |old(pool)| + 1
      ensures delaySem == Credit(old(delaySem), old(model)[0].owner)
    {
      FirstEntry();
      delaySem := Credit(delaySem, head.next.support.value);
      DropFirst();
    }

    method DropFirst()
      requires Valid() && model != []
      modifies this`freeHead, this`pool, this`path, this`model, table`next, table`wakeTime, table`support
      ensures Valid() && model == old(model)[1..] && |pool| == |old(pool)| + 1
    {
      ghost var rest := [path[0]] + path[2..];
      TableCut(path, pool);
      StoresRest(path, model);
      assert head in path && path[1] in path;
      var first := BeheadAside(head, path, freeHead, pool);
      assert forall x :: x in rest ==> x in path;
      Rethread(rest, model[1..]);
      FreeDelayd(first);
    }

    /** One pass of the daemon with the clock readings `clock(0)`, `clock(1)`, ...: the entries
        due in turn leave the list, and each owner gets one V per entry. The pass faults on the
        missing owner of the tail dummy exactly when it runs off the end. */
    method Pass(clock: nat -> int) returns (faulted: bool)
      requires Valid() && forall e :: e in model ==> e.owner < |delaySem|
      modifies this`freeHead, this`pool, this`path, this`model, this`delaySem
      modifies table`next, table`wakeTime, table`support
      ensures Valid()
      ensures model == old(model)[Due(old(model), clock, 0)..]
      ensures |pool| == |old(pool)| + Due(old(model), clock, 0)
      ensures delaySem == Credits(old(delaySem), old(model), Due(old(model), clock, 0))
      ensures faulted <==> RunsOffTheEnd(old(model), clock)
    {
      ghost var all, was, spare := model, delaySem, |pool|;
      var i: nat := 0;
      PassStarts(all, was, clock);
      FirstEntry();
      while head.next.wakeTime <= clock(i) && head.next.support != None
        invariant Valid() && Passing(all, was, clock, i, model, delaySem) && |pool| == spare + i
        invariant head != null && head.next != null
        decreases |model|
      {
        FirstEntry();
        PassGoesOn(all, was, clock, i, model, delaySem);
        WakeNext();
        i := i + 1;
        FirstEntry();
      }
      FirstEntry();
      PassEnds(all, was, clock, i, model, delaySem);
      faulted := head.next.wakeTime <= clock(i);
    }

    /** initADL: two descriptors of the table become the dummies, the others the pool. */
    constructor (delaydTable: seq<Delayd>, processes: nat)
      requires |delaydTable| >= 2 && Distinct(delaydTable)
      modifies Descriptors(delaydTable)
      ensures Valid() && table == Descriptors(delaydTable) && model == [] && |pool| == |delaydTable| - 2
      ensures delaySem == seq(processes, _ => 0)
    {
      delaySem := seq(processes, _ => 0);
      table := Descriptors(delaydTable);
      var first, last, rest := Prepare(delaydTable);
      head, freeHead := first, rest;
      path, pool, model := [first, last], delaydTable[2..], [];
    }
  }

  /** The table as one chain, then its first two descriptors as a list of two dummies. */
  method Prepare(table: seq<Delayd>) returns (first: Delayd, last: Delayd, rest: Delayd?)
    requires |table| >= 2 && Distinct(table)
    modifies Descriptors(table)
    ensures table == [first, last] + table[2..] && first !in table[2..] && last !in table[2..]
    ensures Linked([first, last]) && Stores([first, last], [])
    ensures Linked(table[2..]) && rest == (if |table| == 2 then null else table[2])
    ensures |table| > 2 ==> table[|table| - 1].next == null
  {
    ChainUp(table);
    first, last := table[0], table[1];
    rest := last.next;
    assert table == [first, last] + table[2..];
    DistinctPositions(table);
    MakeDummies(first, last, table[2..]);
  }

  // ---- a pass in progress

  /** The first `i` entries have left, and their owners are credited. */
  ghost predicate Passing(all: seq<Entry<nat>>, was: seq<int>, clock: nat -> int, i: nat,
                          rest: seq<Entry<nat>>, sem: seq<int>)
  {
    && i <= Due(all, clock, 0) && rest == all[i..]
    && (forall e :: e in all ==> e.owner < |was|) && sem == Credits(was, all, i)
  }

  lemma PassStarts(all: seq<Entry<nat>>, was: seq<int>, clock: nat -> int)
    requires forall e :: e in all ==> e.owner < |was|
    ensures Passing(all, was, clock, 0, all, was)
  {
  }

  lemma PassGoesOn(all: seq<Entry<nat>>, was: seq<int>, clock: nat -> int, i: nat, rest: seq<Entry<nat>>, sem: seq<int>)
    requires Passing(all, was, clock, i, rest, sem) && rest != [] && rest[0].wake <= clock(i)
    ensures rest[0].owner < |sem| && Passing(all, was, clock, i + 1, rest[1..], Credit(sem, rest[0].owner))
  {
    DueAt(all, clock, i);
    assert rest[0] == all[i] && all[i] in all && rest[1..] == all[i + 1..];
  }

  lemma PassEnds(all: seq<Entry<nat>>, was: seq<int>, clock: nat -> int, i: nat, rest: seq<Entry<nat>>, sem: seq<int>)
    requires Passing(all, was, clock, i, rest, sem) && (rest != [] ==> rest[0].wake > clock(i))
    ensures i == Due(all, clock, 0) && (RunsOffTheEnd(all, clock) <==> rest == [] && MAXSIGNEDINT <= clock(i))
  {
    DueAt(all, clock, i);
    if rest != [] { assert rest[0] == all[i]; }
  }

  method ChainUp(table: seq<Delayd>)
    requires |table| >= 2 && Distinct(table)
    modifies Descriptors(table)`next
    ensures table[|table| - 1].next == null && Linked(table[2..])
    ensures table[1].next == if |table| > 2 then table[2] else null
  {
    DistinctPositions(table);
    for i := 0 to |table| - 1
      invariant forall j {:trigger table[j].next} :: 0 <= j < i ==> table[j].next == table[j + 1]
    {
      table[i].next := table[i + 1];
    }
    table[|table| - 1].next := null;
    assert Distinct(table[1..]) && table[1..][1..] == table[2..];
    forall i {:trigger table[2..][i].next} | 0 <= i < |table| - 3 ensures table[2..][i].next == table[2..][i + 1] {
      assert table[2..][i] == table[i + 2];
    }
  }

  method MakeDummies(first: Delayd, last: Delayd, ghost rest: seq<Delayd>)
    requires first != last && first !in rest && last !in rest && Linked(rest)
    modifies first, last
    ensures Linked(rest) && Linked([first, last]) && Stores([first, last], [])
    ensures rest != [] ==> rest[|rest| - 1].next == old(rest[|rest| - 1].next)
  {
    first.next, first.wakeTime, first.support := last, -1, None;
    last.next, last.wakeTime, last.support := null, MAXSIGNEDINT, None;
  }

  lemma PathGrown(path: seq<Delayd>, k: nat, d: Delayd)
    requires k <= |path|
    ensures var longer := path[..k] + [d] + path[k..];
            Descriptors(longer) == Descriptors(path) + {d} && forall x :: x in longer <==> x in path || x == d
  {
    assert path == path[..k] + path[k..];
  }

  lemma TableCut(path: seq<Delayd>, pool: seq<Delayd>)
    requires |path| >= 2
    ensures Descriptors([path[0]] + path[2..]) + Descriptors([path[1]] + pool) == Descriptors(path) + Descriptors(pool)
  {
    assert path == [path[0]] + [path[1]] + path[2..];
  }
}
