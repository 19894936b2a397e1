/** The Cumulative Match Characteristic of a closed-set identification:
    for each rank k, the fraction of probes whose true class is among the k
    classes with the highest predicted probability. A probe counts at rank k
    when fewer than k classes have a STRICTLY higher probability than its
    true class, so classes tied with the true class never count against it. */
module Cmc {
  import opened Wrappers
  import Ranking

  /** `(ranks, cms_values)`: the x and y axes of the curve. */
  datatype Curve = Curve(ranks: seq<int>, values: seq<real>)

  /** What the caller supplies: one probability row per probe, one column per
      class, distinct classes, and every ground-truth label one of the classes. */
  predicate WellFormed<L(==)>(yTrue: seq<L>, yProba: seq<seq<real>>, classes: seq<L>) {
    && |yProba| == |yTrue|
    && (forall i :: 0 <= i < |yProba| ==> |yProba[i]| == |classes|)
    && (forall a, b :: 0 <= a < b < |classes| ==> classes[a] != classes[b])
    && (forall i :: 0 <= i < |yTrue| ==> yTrue[i] in classes)
  }

  /** `np.where(classes == y)`: the column of class y. */
  function IndexOf<L(==)>(classes: seq<L>, y: L): (k: nat)
    requires y in classes
    ensures k < |classes| && classes[k] == y
    ensures forall j :: 0 <= j < k ==> classes[j] != y
  {
    if classes[0] == y then 0 else 1 + IndexOf(classes[1..], y)
  }

  /** `sum(1 for a in probs if a > v)`. */
  function CountGreater(probs: seq<real>, v: real): (c: nat)
    ensures c <= |probs|
  {
    if |probs| == 0 then 0
    else CountGreater(probs[..|probs| - 1], v) + (if probs[|probs| - 1] > v then 1 else 0)
  }

  /** The probe with probabilities `probs` and true class y is a hit at `rank`. */
  predicate Hit<L(==)>(probs: seq<real>, classes: seq<L>, y: L, rank: int)
    requires |probs| == |classes| && y in classes
  {
    CountGreater(probs, probs[IndexOf(classes, y)]) < rank
  }

  /** The number of hits at `rank` among the first n probes. */
  function Hits<L(==)>(yTrue: seq<L>, yProba: seq<seq<real>>, classes: seq<L>, rank: int, n: nat): (h: nat)
    requires WellFormed(yTrue, yProba, classes) && n <= |yTrue|
    ensures h <= n
  {
    if n == 0 then 0
    else
      var earlier := Hits(yTrue, yProba, classes, rank, n - 1);
      earlier + (if Hit(yProba[n - 1], classes, yTrue[n - 1], rank) then 1 else 0)
  }

  /** The Cumulative Match Score at `rank`: a fraction of the probe set. */
  function Cms<L(==)>(yTrue: seq<L>, yProba: seq<seq<real>>, classes: seq<L>, rank: int): (v: real)
    requires WellFormed(yTrue, yProba, classes) && |yTrue| > 0
    ensures 0.0 <= v <= 1.0
  {
    var h := Hits(yTrue, yProba, classes, rank, |yTrue|);
    FractionInUnit(h as real, |yTrue| as real);
    h as real / |yTrue| as real
  }

  /** The scores for ranks 1 .. last, computed as `cmc_curve` does: for each rank
      a pass over the probes that counts the hits, then one division by the
      number of probes (which fails when there are none). */
  method Scores<L(==)>(yTrue: seq<L>, yProba: seq<seq<real>>, classes: seq<L>, last: int)
    returns (r: Result<seq<real>>)
    requires WellFormed(yTrue, yProba, classes)
    ensures r.Err? <==> last >= 1 && |yTrue| == 0
    ensures r.Err? ==> r.error == ZeroDivisionError
    ensures r.Ok? ==> |r.value| == (if last < 0 then 0 else last)
    ensures r.Ok? && last >= 1 ==>
      forall k :: 0 <= k < |r.value| ==> r.value[k] == Cms(yTrue, yProba, classes, k + 1)
  {
    var values: seq<real> := [];
    var rank := 1;
    while rank <= last
      invariant 1 <= rank <= (if last < 0 then 1 else last + 1)
      invariant |values| == rank - 1
      invariant rank > 1 ==> |yTrue| > 0
      invariant forall k :: 0 <= k < |values| ==> |yTrue| > 0 && values[k] == Cms(yTrue, yProba, classes, k + 1)
    {
      var hits := 0;
      var i := 0;
      while i < |yTrue|
        invariant 0 <= i <= |yTrue|
        invariant hits == Hits(yTrue, yProba, classes, rank, i)
      {
        var probs := yProba[i];
        var index := IndexOf(classes, yTrue[i]);
        if CountGreater(probs, probs[index]) < rank {
          hits := hits + 1;
        }
        i := i + 1;
      }
      if |yTrue| == 0 {
        return Err(ZeroDivisionError);
      }
      values := values + [hits as real / |yTrue| as real];
      rank := rank + 1;
    }
    return Ok(values);
  }

  /** `cmc_curve(y_true, y_predicted_proba, classes)`: ranks 1 .. len(classes)-1
      and their scores. */
  method CmcCurve<L(==)>(yTrue: seq<L>, yProba: seq<seq<real>>, classes: seq<L>) returns (r: Result<Curve>)
    requires WellFormed(yTrue, yProba, classes)
    ensures r.Err? <==> |classes| > 1 && |yTrue| == 0
    ensures r.Err? ==> r.error == ZeroDivisionError
    ensures r.Ok? ==> |r.value.ranks| == |r.value.values| == (if |classes| == 0 then 0 else |classes| - 1)
    ensures r.Ok? ==> forall k :: 0 <= k < |r.value.ranks| ==> r.value.ranks[k] == k + 1
    ensures r.Ok? && |classes| > 1 ==>
      forall k :: 0 <= k < |r.value.values| ==> r.value.values[k] == Cms(yTrue, yProba, classes, k + 1)
  {
    var values :- Scores(yTrue, yProba, classes, |classes| - 1);
    var ranks := seq(|values|, k => k + 1);
    return Ok(Curve(ranks, values));
  }

  // ----- Properties of the scores -----

  lemma {:induction false} HitsMonotone<L>(yTrue: seq<L>, yProba: seq<seq<real>>, classes: seq<L>, r1: int, r2: int, n: nat)
    requires WellFormed(yTrue, yProba, classes) && n <= |yTrue| && r1 <= r2
    ensures Hits(yTrue, yProba, classes, r1, n) <= Hits(yTrue, yProba, classes, r2, n)
  {
    if n > 0 {
      HitsMonotone(yTrue, yProba, classes, r1, r2, n - 1);
    }
  }

  /** The curve never decreases: a hit at rank k is a hit at every later rank. */
  lemma CmsNonDecreasing<L>(yTrue: seq<L>, yProba: seq<seq<real>>, classes: seq<L>, r1: int, r2: int)
    requires WellFormed(yTrue, yProba, classes) && |yTrue| > 0 && r1 <= r2
    ensures Cms(yTrue, yProba, classes, r1) <= Cms(yTrue, yProba, classes, r2)
  {
    HitsMonotone(yTrue, yProba, classes, r1, r2, |yTrue|);
    DivideMonotone(Hits(yTrue, yProba, classes, r1, |yTrue|) as real,
      Hits(yTrue, yProba, classes, r2, |yTrue|) as real, |yTrue| as real);
  }

  lemma FractionInUnit(h: real, n: real)
    requires 0.0 <= h <= n && n > 0.0
    ensures 0.0 <= h / n <= 1.0
  {
    DivideMonotone(h, n, n);
    DivideMonotone(0.0, h, n);
  }

  lemma DivideMonotone(a: real, b: real, n: real)
    requires a <= b && n > 0.0
    ensures a / n <= b / n
  {
    assert b / n - a / n == (b - a) / n;
  }

  lemma {:induction false} CountGreaterZero(probs: seq<real>, v: real)
    ensures CountGreater(probs, v) == 0 <==> forall j :: 0 <= j < |probs| ==> probs[j] <= v
  {
    if |probs| > 0 {
      var init := probs[..|probs| - 1];
      CountGreaterZero(init, v);
      assert forall j :: 0 <= j < |init| ==> init[j] == probs[j];
    }
  }

  /** Counting splits over a concatenation. */
  lemma {:induction false} CountGreaterAppend(a: seq<real>, b: seq<real>, v: real)
    ensures CountGreater(a + b, v) == CountGreater(a, v) + CountGreater(b, v)
  {
    if |b| > 0 {
      assert (a + b)[..|a + b| - 1] == a + b[..|b| - 1];
      CountGreaterAppend(a, b[..|b| - 1], v);
    } else {
      assert a + b == a;
    }
  }

  lemma {:induction false} CountGreaterAll(probs: seq<real>, v: real)
    ensures CountGreater(probs, v) == |probs| <==> forall j :: 0 <= j < |probs| ==> probs[j] > v
  {
    if |probs| > 0 {
      var init := probs[..|probs| - 1];
      CountGreaterAll(init, v);
      assert forall j :: 0 <= j < |init| ==> init[j] == probs[j];
    }
  }

  /** The classes outranking class t are those before it and those after it. */
  lemma CountGreaterAround(probs: seq<real>, t: nat)
    requires t < |probs|
    ensures CountGreater(probs, probs[t]) == CountGreater(probs[..t], probs[t]) + CountGreater(probs[t + 1..], probs[t])
  {
    var tail := probs[t..];
    CountGreaterSplit(probs, t, probs[t]);
    CountGreaterDropSelf(tail);
    assert tail[0] == probs[t] && tail[1..] == probs[t + 1..];
  }

  lemma CountGreaterSplit(probs: seq<real>, t: nat, v: real)
    requires t <= |probs|
    ensures CountGreater(probs, v) == CountGreater(probs[..t], v) + CountGreater(probs[t..], v)
  {
    assert probs == probs[..t] + probs[t..];
    CountGreaterAppend(probs[..t], probs[t..], v);
  }

  /** A probability does not outrank itself. */
  lemma CountGreaterDropSelf(s: seq<real>)
    requires |s| > 0
    ensures CountGreater(s, s[0]) == CountGreater(s[1..], s[0])
  {
    assert s == [s[0]] + s[1..];
    CountGreaterAppend([s[0]], s[1..], s[0]);
    assert [s[0]][..0] == [];
  }

  /** At most every OTHER class outranks the true class, and all of them do
      exactly when each has a strictly higher probability. */
  lemma CountGreaterOthers(probs: seq<real>, t: nat)
    requires t < |probs|
    ensures CountGreater(probs, probs[t]) <= |probs| - 1
    ensures CountGreater(probs, probs[t]) == |probs| - 1 <==>
      forall j :: 0 <= j < |probs| && j != t ==> probs[j] > probs[t]
  {
    var v := probs[t];
    var before, after := probs[..t], probs[t + 1..];
    CountGreaterAround(probs, t);
    CountGreaterAll(before, v);
    CountGreaterAll(after, v);
    if forall j :: 0 <= j < |probs| && j != t ==> probs[j] > v {
      assert forall j :: 0 <= j < |before| ==> before[j] == probs[j];
      assert forall j :: 0 <= j < |after| ==> after[j] == probs[t + 1 + j];
    } else {
      var j :| 0 <= j < |probs| && j != t && !(probs[j] > v);
      if j < t {
        assert before[j] == probs[j];
      } else {
        assert after[j - t - 1] == probs[j];
      }
    }
  }

  /** Rank 1 is the recognition rate: a probe is a hit at rank 1 exactly when
      no class has a strictly higher probability than its true class. */
  lemma HitAtRankOne<L>(probs: seq<real>, classes: seq<L>, y: L)
    requires |probs| == |classes| && y in classes
    ensures Hit(probs, classes, y, 1) <==>
      forall j :: 0 <= j < |probs| ==> probs[j] <= probs[IndexOf(classes, y)]
  {
    CountGreaterZero(probs, probs[IndexOf(classes, y)]);
  }

  /** The number of probes whose true class has the highest probability (ties allowed). */
  function Recognized<L(==)>(yTrue: seq<L>, yProba: seq<seq<real>>, classes: seq<L>, n: nat): (c: nat)
    requires WellFormed(yTrue, yProba, classes) && n <= |yTrue|
    ensures c <= n
  {
    if n == 0 then 0
    else
      var probs := yProba[n - 1];
      var t := IndexOf(classes, yTrue[n - 1]);
      Recognized(yTrue, yProba, classes, n - 1)
        + (if forall j :: 0 <= j < |probs| ==> probs[j] <= probs[t] then 1 else 0)
  }

  lemma {:induction false} HitsAtRankOne<L>(yTrue: seq<L>, yProba: seq<seq<real>>, classes: seq<L>, n: nat)
    requires WellFormed(yTrue, yProba, classes) && n <= |yTrue|
    ensures Hits(yTrue, yProba, classes, 1, n) == Recognized(yTrue, yProba, classes, n)
  {
    if n > 0 {
      HitsAtRankOne(yTrue, yProba, classes, n - 1);
      HitAtRankOne(yProba[n - 1], classes, yTrue[n - 1]);
    }
  }

  /** The score at rank 1 is the recognition rate. */
  lemma RecognitionRate<L>(yTrue: seq<L>, yProba: seq<seq<real>>, classes: seq<L>)
    requires WellFormed(yTrue, yProba, classes) && |yTrue| > 0
    ensures Cms(yTrue, yProba, classes, 1)
      == Recognized(yTrue, yProba, classes, |yTrue|) as real / |yTrue| as real
  {
    HitsAtRankOne(yTrue, yProba, classes, |yTrue|);
  }

  /** At the last rank of the curve, len(classes)-1, a probe misses only when
      every other class has a strictly higher probability than its true class. */
  lemma MissAtLastRank<L>(probs: seq<real>, classes: seq<L>, y: L)
    requires |probs| == |classes| && y in classes
    ensures !Hit(probs, classes, y, |classes| - 1) <==>
      var t := IndexOf(classes, y);
      forall j :: 0 <= j < |probs| && j != t ==> probs[j] > probs[t]
  {
    CountGreaterOthers(probs, IndexOf(classes, y));
  }

  /** Every probe is a hit at rank len(classes): the true class always has at
      most len(classes)-1 classes above it. */
  lemma HitAtGallerySize<L>(probs: seq<real>, classes: seq<L>, y: L)
    requires |probs| == |classes| && y in classes
    ensures Hit(probs, classes, y, |classes|)
  {
    CountGreaterOthers(probs, IndexOf(classes, y));
  }

  lemma {:induction false} AllHitAtGallerySize<L>(yTrue: seq<L>, yProba: seq<seq<real>>, classes: seq<L>, n: nat)
    requires WellFormed(yTrue, yProba, classes) && n <= |yTrue|
    ensures Hits(yTrue, yProba, classes, |classes|, n) == n
  {
    if n > 0 {
      AllHitAtGallerySize(yTrue, yProba, classes, n - 1);
      HitAtGallerySize(yProba[n - 1], classes, yTrue[n - 1]);
    }
  }

  // ----- The sorted formulation (the commented-out equivalent) -----

  lemma {:induction false} GreaterAreBefore(p: seq<real>, t: nat, n: nat)
    requires t < |p| && n <= |p|
    ensures CountGreater(p[..n], p[t]) <= Ranking.CountBefore(p, t, n)
    ensures (forall j :: 0 <= j < |p| && j != t ==> p[j] != p[t]) ==>
      CountGreater(p[..n], p[t]) == Ranking.CountBefore(p, t, n)
  {
    if n > 0 {
      assert p[..n][..n - 1] == p[..n - 1];
      GreaterAreBefore(p, t, n - 1);
    }
  }

  /** A class among the first `rank` entries of the sorted ranking is always a
      hit; the converse holds when no other class ties the true class. */
  lemma HitIffInRanking<L>(probs: seq<real>, classes: seq<L>, y: L, rank: nat)
    requires |probs| == |classes| && y in classes && rank <= |classes|
    requires forall a, b :: 0 <= a < b < |classes| ==> classes[a] != classes[b]
    ensures y in Ranking.Ranking(probs, classes)[..rank] ==> Hit(probs, classes, y, rank)
    ensures (forall j :: 0 <= j < |probs| && j != IndexOf(classes, y) ==> probs[j] != probs[IndexOf(classes, y)]) ==>
      (Hit(probs, classes, y, rank) <==> y in Ranking.Ranking(probs, classes)[..rank])
  {
    var n := |classes|;
    var t := IndexOf(classes, y);
    var o := Ranking.Order(probs, n);
    var ranking := Ranking.Ranking(probs, classes);
    assert probs[..n] == probs;
    Ranking.OrderIsPermutation(probs, n);
    Ranking.InTopK(probs, t, rank);
    GreaterAreBefore(probs, t, n);
    assert y in ranking[..rank] <==> t in o[..rank] by {
      if y in ranking[..rank] {
        var m :| 0 <= m < rank && ranking[..rank][m] == y;
        assert classes[o[m]] == y;
        assert o[m] == t;
        assert o[..rank][m] == t;
      }
      if t in o[..rank] {
        var m :| 0 <= m < rank && o[..rank][m] == t;
        assert ranking[..rank][m] == y;
      }
    }
  }

  /** With a tie the two formulations differ: classes 0 and 1 both have
      probability 0.5; class 1 is a hit at rank 1 although the stable sort
      lists class 0 first. */
  lemma TieCountsAsHit()
    ensures Hit([0.5, 0.5, 0.0], [0, 1, 2], 1, 1)
    ensures Ranking.Ranking([0.5, 0.5, 0.0], [0, 1, 2])[..1] == [0]
  {
    var p := [0.5, 0.5, 0.0];
    assert IndexOf([0, 1, 2], 1) == 1;
    assert CountGreater(p, 0.5) == 0 by {
      assert p[..2][..1][..0] == [];
    }
    assert p[..3] == p;
    assert Ranking.Order(p, 1) == [0];
    assert Ranking.Order(p, 2) == [0, 1];
    assert Ranking.Order(p, 3) == [0, 1, 2];
  }

  // ----- The last point of the curve -----

  /** The curve stops at rank len(classes)-1, so its last value can be 0:
      two classes, one probe of class 0 that gives class 1 the higher
      probability. */
  lemma LastValueCanBeZero()
    ensures WellFormed([0], [[0.2, 0.8]], [0, 1])
    ensures Cms([0], [[0.2, 0.8]], [0, 1], 1) == 0.0
  {
    assert IndexOf([0, 1], 0) == 0;
    var p := [0.2, 0.8];
    assert CountGreater(p, 0.2) == 1 by {
      assert p[..1][..0] == [];
    }
  }

  /** The curve over ranks 1 .. len(classes), one point per gallery class. */
  method CmcCurveFull<L(==)>(yTrue: seq<L>, yProba: seq<seq<real>>, classes: seq<L>) returns (r: Result<Curve>)
    requires WellFormed(yTrue, yProba, classes)
    ensures r.Err? <==> |classes| > 0 && |yTrue| == 0
    ensures r.Ok? ==> |r.value.ranks| == |r.value.values| == |classes|
    ensures r.Ok? ==> forall k :: 0 <= k < |r.value.ranks| ==> r.value.ranks[k] == k + 1
    ensures r.Ok? && |classes| > 0 ==>
      forall k :: 0 <= k < |r.value.values| ==> r.value.values[k] == Cms(yTrue, yProba, classes, k + 1)
    ensures r.Ok? && |classes| > 0 ==> r.value.values[|classes| - 1] == 1.0
  {
    var values :- Scores(yTrue, yProba, classes, |classes|);
    var ranks := seq(|values|, k => k + 1);
    if |classes| > 0 {
      AllHitAtGallerySize(yTrue, yProba, classes, |yTrue|);
    }
    return Ok(Curve(ranks, values));
  }
}
