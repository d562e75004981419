/** Facts about sequences that the queues, lists and tables of the kernel share. */
module Sequences {

  datatype Option<+T> = None | Some(value: T)

  /** `q` without the members of `gone`, the others in their old order. */
  function Without<T(==)>(q: seq<T>, gone: set<T>): (r: seq<T>)
    ensures |r| <= |q|
  {
    if q == [] then []
    else if q[0] in gone then Without(q[1..], gone)
    else [q[0]] + Without(q[1..], gone)
  }

  lemma {:induction false} WithoutMembers<T>(q: seq<T>, gone: set<T>)
    ensures forall x :: x in Without(q, gone) <==> x in q && x !in gone
  {
    if q != [] {
      WithoutMembers(q[1..], gone);
      assert q == [q[0]] + q[1..];
    }
  }

  predicate Distinct<T(==)>(q: seq<T>) {
    q == [] || (q[0] !in q[1..] && Distinct(q[1..]))
  }

  lemma {:induction false} DistinctPositions<T>(q: seq<T>)
    ensures Distinct(q) <==> forall i, j :: 0 <= i < j < |q| ==> q[i] != q[j]
  {
    if q != [] {
      var t := q[1..];
      DistinctPositions(t);
      assert q == [q[0]] + t;
      if Distinct(q) {
        forall i, j | 0 <= i < j < |q| ensures q[i] != q[j] {
          assert q[j] == t[j - 1] && q[j] in t;
          assert i > 0 ==> q[i] == t[i - 1];
        }
      } else if q[0] in t {
        var j :| 0 <= j < |t| && t[j] == q[0];
        assert q[0] == q[j + 1];
      } else {
        var i, j :| 0 <= i < j < |t| && t[i] == t[j];
        assert q[i + 1] == q[j + 1];
      }
    }
  }

  lemma DistinctSplice<T>(q: seq<T>, k: nat, x: T)
    requires Distinct(q) && k <= |q| && x !in q
    ensures Distinct(q[..k] + [x] + q[k..])
  {
    var r := q[..k] + [x] + q[k..];
    DistinctPositions(q);
    DistinctPositions(r);
    assert forall i {:trigger r[i]} :: 0 <= i < |r| ==> r[i] == if i < k then q[i] else if i == k then x else q[i - 1];
  }

  lemma DistinctCut<T>(q: seq<T>, k: nat)
    requires Distinct(q) && k < |q|
    ensures var r := q[..k] + q[k + 1..]; Distinct(r) && q[k] !in r
  {
    var r := q[..k] + q[k + 1..];
    DistinctPositions(q);
    DistinctPositions(r);
    assert forall i {:trigger r[i]} :: 0 <= i < |r| ==> r[i] == if i < k then q[i] else q[i + 1];
  }

  lemma {:induction false} WithoutTwice<T>(q: seq<T>, a: set<T>, b: set<T>)
    ensures Without(Without(q, a), b) == Without(q, a + b)
  {
    if q != [] {
      WithoutTwice(q[1..], a, b);
    }
  }

  lemma {:induction false} WithoutStrangers<T>(q: seq<T>, gone: set<T>)
    requires forall x :: x in q ==> x !in gone
    ensures Without(q, gone) == q
  {
    if q != [] {
      WithoutStrangers(q[1..], gone);
    }
  }

  lemma {:induction false} WithoutAlike<T>(q: seq<T>, a: set<T>, b: set<T>)
    requires forall x :: x in q ==> (x in a <==> x in b)
    ensures Without(q, a) == Without(q, b)
  {
    if q != [] {
      WithoutAlike(q[1..], a, b);
    }
  }

  lemma {:induction false} WithoutConcat<T>(q: seq<T>, r: seq<T>, gone: set<T>)
    ensures Without(q + r, gone) == Without(q, gone) + Without(r, gone)
  {
    if q == [] {
      assert q + r == r;
    } else {
      assert (q + r)[1..] == q[1..] + r;
      WithoutConcat(q[1..], r, gone);
    }
  }

  lemma {:induction false} WithoutCount<T>(q: seq<T>, gone: set<T>, x: T)
    ensures multiset(Without(q, gone))[x] == if x in gone then 0 else multiset(q)[x]
  {
    if q != [] {
      assert q == [q[0]] + q[1..];
      WithoutCount(q[1..], gone, x);
    }
  }

  /** Taking one element out of a queue without repeats cuts it at that element. */
  lemma {:induction false} WithoutOne<T>(q: seq<T>, k: nat)
    requires k < |q| && Distinct(q)
    ensures Without(q, {q[k]}) == q[..k] + q[k + 1..]
  {
    DistinctPositions(q);
    var cut := [q[k]] + q[k + 1..];
    assert q == q[..k] + cut;
    WithoutConcat(q[..k], cut, {q[k]});
    WithoutStrangers(q[..k], {q[k]});
    assert cut[1..] == q[k + 1..];
    WithoutStrangers(q[k + 1..], {q[k]});
  }

  /** A survivor of `Without` never moves towards the back. */
  lemma {:induction false} WithoutAdvances<T>(q: seq<T>, gone: set<T>, i: nat) returns (j: nat)
    requires i < |q| && q[i] !in gone
    ensures j <= i && j < |Without(q, gone)| && Without(q, gone)[j] == q[i]
  {
    if i == 0 {
      j := 0;
    } else {
      j := WithoutAdvances(q[1..], gone, i - 1);
      if q[0] !in gone {
        j := j + 1;
      }
    }
  }

  lemma CountOfMember<T>(q: seq<T>, x: T)
    ensures x in q <==> multiset(q)[x] > 0
  {
  }

  lemma {:induction false} DistinctCounts<T(!new)>(q: seq<T>)
    ensures Distinct(q) <==> forall x :: multiset(q)[x] <= 1
  {
    if q != [] {
      var t := q[1..];
      assert q == [q[0]] + t;
      DistinctCounts(t);
      CountOfMember(t, q[0]);
      assert forall x :: multiset(q)[x] == multiset(t)[x] + if x == q[0] then 1 else 0;
    }
  }

  lemma {:induction false} DistinctWithout<T>(q: seq<T>, gone: set<T>)
    requires Distinct(q)
    ensures Distinct(Without(q, gone))
  {
    if q != [] {
      DistinctWithout(q[1..], gone);
      WithoutMembers(q[1..], gone);
    }
  }

  lemma WithoutMember<T>(q: seq<T>, x: T)
    requires Distinct(q) && x in q
    ensures |Without(q, {x})| == |q| - 1
  {
    var k :| 0 <= k < |q| && q[k] == x;
    WithoutOne(q, k);
  }

  lemma OneMore<T>(q: seq<T>, n: nat)
    requires 0 < n <= |q|
    ensures q[..n] == q[..n - 1] + [q[n - 1]]
  {
  }

  // ---- counting

  ghost function Below(n: nat): (r: set<int>)
    ensures |r| == n && forall p :: p in r <==> 0 <= p < n
  {
    if n == 0 then {} else Below(n - 1) + {n - 1}
  }

  lemma NoMoreThan<T>(x: set<T>, y: set<T>)
    requires x <= y
    ensures |x| <= |y|
  {
    assert y == x + (y - x);
  }

  // ---- hiding

  /** A condition under `Key(k)` is hidden from the verifier until a proof mentions a key. */
  ghost predicate Key(k: bool) { true }
}
