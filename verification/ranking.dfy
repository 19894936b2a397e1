/** Ordering the classes of one probe by decreasing predicted probability.
    Python's `sorted(zip(probs, classes), key=prob, reverse=True)` is stable,
    so classes with equal probability keep their order in `classes`: the sort
    is the unique order in which class i precedes class j exactly when
    `Before(p, i, j)`. */
module Ranking {

  /** Class index i comes before class index j in the ranking. */
  predicate Before(p: seq<real>, i: nat, j: nat)
    requires i < |p| && j < |p|
  {
    p[i] > p[j] || (p[i] == p[j] && i < j)
  }

  predicate InRange(p: seq<real>, s: seq<nat>) {
    forall k :: 0 <= k < |s| ==> s[k] < |p|
  }

  /** Every earlier entry comes before every later one. */
  predicate SortedBy(p: seq<real>, s: seq<nat>)
    requires InRange(p, s)
  {
    forall a, b :: 0 <= a < b < |s| ==> Before(p, s[a], s[b])
  }

  /** Insert class index x in front of the first entry it comes before. */
  function Insert(p: seq<real>, x: nat, s: seq<nat>): (r: seq<nat>)
    requires x < |p| && InRange(p, s)
    ensures |r| == |s| + 1 && InRange(p, r)
    ensures forall e :: e in r <==> e == x || e in s
  {
    if |s| == 0 then [x]
    else if Before(p, x, s[0]) then [x] + s
    else [s[0]] + Insert(p, x, s[1..])
  }

  /** The class indices 0 .. n-1 in ranking order (insertion sort). */
  function Order(p: seq<real>, n: nat): (r: seq<nat>)
    requires n <= |p|
    ensures |r| == n && InRange(p, r)
    ensures forall e: int :: e in r <==> 0 <= e < n
  {
    if n == 0 then [] else Insert(p, n - 1, Order(p, n - 1))
  }

  lemma {:induction false} InsertSorted(p: seq<real>, x: nat, s: seq<nat>)
    requires x < |p| && InRange(p, s) && SortedBy(p, s) && x !in s
    ensures SortedBy(p, Insert(p, x, s))
  {
    if |s| > 0 && !Before(p, x, s[0]) {
      assert s[0] != x;
      assert Before(p, s[0], x);
      InsertSorted(p, x, s[1..]);
      var t := Insert(p, x, s[1..]);
      forall k | 0 <= k < |t|
        ensures Before(p, s[0], t[k])
      {
        assert t[k] in t;
        if t[k] != x {
          assert t[k] in s[1..];
          var m :| 0 <= m < |s[1..]| && s[1..][m] == t[k];
          assert s[m + 1] == t[k];
        }
      }
    }
  }

  /** The ranking order is sorted: each class precedes every class after it. */
  lemma {:induction false} OrderSorted(p: seq<real>, n: nat)
    requires n <= |p|
    ensures SortedBy(p, Order(p, n))
  {
    if n > 0 {
      OrderSorted(p, n - 1);
      InsertSorted(p, n - 1, Order(p, n - 1));
    }
  }

  /** The ranking order lists every class index exactly once. */
  lemma OrderIsPermutation(p: seq<real>, n: nat)
    requires n <= |p|
    ensures forall a, b :: 0 <= a < b < n ==> Order(p, n)[a] != Order(p, n)[b]
    ensures forall j :: 0 <= j < n ==> j in Order(p, n)
  {
    OrderSorted(p, n);
  }

  /** `[x for _, x in sorted(zip(probs, classes), key=lambda x: x[0], reverse=True)]`;
      `zip` stops at the shorter of the two lists. */
  function Ranking<L>(probs: seq<real>, classes: seq<L>): (r: seq<L>)
    ensures |r| == Width(probs, classes)
    ensures forall k :: 0 <= k < |r| ==> r[k] == classes[Order(probs[..Width(probs, classes)], |r|)[k]]
  {
    var n := Width(probs, classes);
    var order := Order(probs[..n], n);
    seq(n, k requires 0 <= k < n => classes[order[k]])
  }

  function Width<L>(probs: seq<real>, classes: seq<L>): nat {
    if |probs| <= |classes| then |probs| else |classes|
  }

  /** Each ranking is a permutation of the classes, listed by non-increasing
      probability, and equal probabilities keep the order of `classes`. */
  lemma RankingSorted<L>(probs: seq<real>, classes: seq<L>)
    requires |probs| == |classes|
    ensures forall j :: 0 <= j < |classes| ==> classes[j] in Ranking(probs, classes)
    ensures forall a, b :: 0 <= a < b < |classes| ==>
      var o := Order(probs, |classes|);
      probs[o[a]] >= probs[o[b]] && (probs[o[a]] == probs[o[b]] ==> o[a] < o[b])
  {
    var n := |classes|;
    assert probs[..n] == probs;
    OrderSorted(probs, n);
    var r := Ranking(probs, classes);
    var o := Order(probs, n);
    forall j | 0 <= j < n
      ensures classes[j] in r
    {
      assert j in o;
      var m :| 0 <= m < n && o[m] == j;
      assert r[m] == classes[j];
    }
  }

  // ----- Position of a class in the ranking -----

  /** The number of class indices below n that come before class t. */
  function CountBefore(p: seq<real>, t: nat, n: nat): (c: nat)
    requires t < |p| && n <= |p|
    ensures c <= n
  {
    if n == 0 then 0 else CountBefore(p, t, n - 1) + (if Before(p, n - 1, t) then 1 else 0)
  }

  /** The number of entries of s that come before class t. */
  function CountIn(p: seq<real>, s: seq<nat>, t: nat): (c: nat)
    requires t < |p| && InRange(p, s)
    ensures c <= |s|
  {
    if |s| == 0 then 0 else (if Before(p, s[0], t) then 1 else 0) + CountIn(p, s[1..], t)
  }

  lemma {:induction false} CountInInsert(p: seq<real>, x: nat, s: seq<nat>, t: nat)
    requires x < |p| && t < |p| && InRange(p, s)
    ensures CountIn(p, Insert(p, x, s), t) == CountIn(p, s, t) + (if Before(p, x, t) then 1 else 0)
  {
    if |s| > 0 && !Before(p, x, s[0]) {
      CountInInsert(p, x, s[1..], t);
    }
  }

  lemma {:induction false} CountInOrder(p: seq<real>, n: nat, t: nat)
    requires n <= |p| && t < |p|
    ensures CountIn(p, Order(p, n), t) == CountBefore(p, t, n)
  {
    if n > 0 {
      CountInOrder(p, n - 1, t);
      CountInInsert(p, n - 1, Order(p, n - 1), t);
    }
  }

  /** In a sorted list, the entries before class t are exactly those at smaller positions. */
  lemma {:induction false} CountInSorted(p: seq<real>, s: seq<nat>, q: nat)
    requires InRange(p, s) && SortedBy(p, s) && q < |s|
    ensures CountIn(p, s, s[q]) == q
  {
    if q == 0 {
      CountInNone(p, s[1..], s[0]);
    } else {
      assert Before(p, s[0], s[q]);
      assert s[1..][q - 1] == s[q];
      CountInSorted(p, s[1..], q - 1);
    }
  }

  lemma {:induction false} CountInNone(p: seq<real>, s: seq<nat>, t: nat)
    requires t < |p| && InRange(p, s)
    requires forall k :: 0 <= k < |s| ==> Before(p, t, s[k])
    ensures CountIn(p, s, t) == 0
  {
    if |s| > 0 {
      CountInNone(p, s[1..], t);
    }
  }

  /** Class t sits at position `CountBefore(p, t, n)` of the ranking order:
      after exactly the classes that come before it. */
  lemma PositionInOrder(p: seq<real>, n: nat, q: nat)
    requires n <= |p| && q < n
    ensures Order(p, n)[q] < n && q == CountBefore(p, Order(p, n)[q], n)
  {
    assert Order(p, n)[q] in Order(p, n);
    OrderSorted(p, n);
    CountInSorted(p, Order(p, n), q);
    CountInOrder(p, n, Order(p, n)[q]);
  }

  /** Class t is among the first k entries of the ranking order exactly when
      fewer than k classes come before it. */
  lemma InTopK(p: seq<real>, t: nat, k: nat)
    requires t < |p| && k <= |p|
    ensures t in Order(p, |p|)[..k] <==> CountBefore(p, t, |p|) < k
  {
    var o := Order(p, |p|);
    assert t in o;
    var q :| 0 <= q < |o| && o[q] == t;
    PositionInOrder(p, |p|, q);
    OrderIsPermutation(p, |p|);
    if t in o[..k] {
      var m :| 0 <= m < k && o[..k][m] == t;
      assert m == q;
    } else {
      assert q >= k;
    }
  }
}
