/** The learner's row filtering and its evaluation output.
    `tseries_train_test_split` (present in the learner and, identically, in
    the features manager) keeps the rows of a point table whose observation
    id was drawn for training, and those drawn for testing; the draw itself
    is the stratified split of a foreign library and is an input here.
    `evaluate` groups, under each probe's ground-truth label, the ranking of
    the classes by decreasing predicted probability. */
module Learner {
  import opened Tables
  import Ranking

  /** The default test fraction of the split. */
  const TEST_SIZE: real := 0.35

  /** A column-less data frame: only its index. */
  datatype Frame = Frame(index: seq<nat>, columns: seq<string>)

  /** A labelled series: the labels and the positions they had in the full list. */
  datatype Labels<L> = Labels(index: seq<nat>, values: seq<L>)

  /** What the stratified split returns: the observation ids drawn for
      training and for testing, and the matching labels. */
  datatype Drawn<L> = Drawn(obsTrain: seq<int>, obsTest: seq<int>, yTrain: Labels<L>, yTest: Labels<L>)

  /** `x_train, x_test, tseries_train, tseries_test, y_train, y_test`. */
  datatype Split<L> = Split(
    xTrain: Frame, xTest: Frame,
    tseriesTrain: seq<Row>, tseriesTest: seq<Row>,
    yTrain: Labels<L>, yTest: Labels<L>)

  /** The ids of a list, as a set (`isin`). */
  function Ids(obs: seq<int>): (r: set<int>)
    ensures forall id :: id in r <==> id in obs
  {
    set id | id in obs
  }

  /** `tseries_train_test_split` once the ids are drawn. */
  function TseriesTrainTestSplit<L>(tseries: seq<Row>, drawn: Drawn<L>): (r: Split<L>)
    ensures forall row :: row in r.tseriesTrain <==> row in tseries && row.id in drawn.obsTrain
    ensures forall row :: row in r.tseriesTest <==> row in tseries && row.id in drawn.obsTest
    ensures r.yTrain == drawn.yTrain && r.yTest == drawn.yTest
    ensures r.xTrain.columns == [] && r.xTrain.index == r.yTrain.index
    ensures r.xTest.columns == [] && r.xTest.index == r.yTest.index
  {
    Split(
      Frame(drawn.yTrain.index, []), Frame(drawn.yTest.index, []),
      Where(tseries, Ids(drawn.obsTrain)), Where(tseries, Ids(drawn.obsTest)),
      drawn.yTrain, drawn.yTest)
  }

  /** Each side keeps its rows in table order: the k-th kept row is the row
      at the k-th of an increasing list of positions, and a position is kept
      iff its row's id was drawn for that side. */
  lemma SplitInOrder<L>(tseries: seq<Row>, drawn: Drawn<L>)
    ensures var r := TseriesTrainTestSplit(tseries, drawn);
      var ps := Positions(tseries, Ids(drawn.obsTrain));
      && |r.tseriesTrain| == |ps|
      && (forall k :: 0 <= k < |ps| ==> r.tseriesTrain[k] == tseries[ps[k]])
      && (forall a, b :: 0 <= a < b < |ps| ==> ps[a] < ps[b])
      && (forall i :: 0 <= i < |tseries| ==> (i in ps <==> tseries[i].id in drawn.obsTrain))
    ensures var r := TseriesTrainTestSplit(tseries, drawn);
      var ps := Positions(tseries, Ids(drawn.obsTest));
      && |r.tseriesTest| == |ps|
      && (forall k :: 0 <= k < |ps| ==> r.tseriesTest[k] == tseries[ps[k]])
      && (forall a, b :: 0 <= a < b < |ps| ==> ps[a] < ps[b])
      && (forall i :: 0 <= i < |tseries| ==> (i in ps <==> tseries[i].id in drawn.obsTest))
  {
    WhereInOrder(tseries, Ids(drawn.obsTrain));
    WhereInOrder(tseries, Ids(drawn.obsTest));
  }

  /** With disjoint draws no table row goes to both sides, and the two sides
      together hold, with multiplicity, exactly the rows whose id was drawn. */
  lemma SplitPartition<L>(tseries: seq<Row>, drawn: Drawn<L>)
    requires forall id :: id in drawn.obsTrain ==> id !in drawn.obsTest
    ensures forall i :: !(i in Positions(tseries, Ids(drawn.obsTrain)) && i in Positions(tseries, Ids(drawn.obsTest)))
    ensures var r := TseriesTrainTestSplit(tseries, drawn);
      multiset(r.tseriesTrain) + multiset(r.tseriesTest) == multiset(Where(tseries, Ids(drawn.obsTrain + drawn.obsTest)))
  {
    assert Ids(drawn.obsTrain) + Ids(drawn.obsTest) == Ids(drawn.obsTrain + drawn.obsTest);
    forall id | id in Ids(drawn.obsTrain)
      ensures id !in Ids(drawn.obsTest)
    {
    }
    WherePartition(tseries, Ids(drawn.obsTrain), Ids(drawn.obsTest));
  }

  // ----- Rankings of the probes -----

  /** The number of probes `zip(y_proba, y_test)` pairs up. */
  function Probes<L>(yProba: seq<seq<real>>, yTest: seq<L>): (n: nat)
    ensures n <= |yProba| && n <= |yTest| && (n == |yProba| || n == |yTest|)
  {
    if |yProba| <= |yTest| then |yProba| else |yTest|
  }

  /** The positions, among the first n probes, of those labelled y. */
  function ProbesOf<L(==)>(yTest: seq<L>, y: L, n: nat): (ps: seq<nat>)
    requires n <= |yTest|
    ensures forall k :: 0 <= k < |ps| ==> ps[k] < n
  {
    if n == 0 then []
    else ProbesOf(yTest, y, n - 1) + (if yTest[n - 1] == y then [n - 1] else [])
  }

  /** The rankings stored under label y after the first n probes. */
  function Grouped<L(==)>(yProba: seq<seq<real>>, yTest: seq<L>, classes: seq<L>, y: L, n: nat): seq<seq<L>>
    requires n <= |yProba| && n <= |yTest|
  {
    if n == 0 then []
    else
      Grouped(yProba, yTest, classes, y, n - 1)
      + (if yTest[n - 1] == y then [Ranking.Ranking(yProba[n - 1], classes)] else [])
  }

  /** The ranking loop of `evaluate`: a label is a key iff some probe carries
      it, and its value lists the rankings of those probes in probe order. */
  method Evaluate<L(==)>(yProba: seq<seq<real>>, yTest: seq<L>, classes: seq<L>)
    returns (out: map<L, seq<seq<L>>>)
    ensures forall y :: y in out <==> y in yTest[..Probes(yProba, yTest)]
    ensures forall y :: y in out ==> out[y] == Grouped(yProba, yTest, classes, y, Probes(yProba, yTest))
  {
    var n := if |yProba| <= |yTest| then |yProba| else |yTest|;
    out := map[];
    var k := 0;
    while k < n
      invariant 0 <= k <= n
      invariant forall y :: y in out <==> y in yTest[..k]
      invariant forall y :: y in out ==> out[y] == Grouped(yProba, yTest, classes, y, k)
      invariant forall y :: y !in out ==> Grouped(yProba, yTest, classes, y, k) == []
    {
      var p, y := yProba[k], yTest[k];
      assert yTest[..k + 1] == yTest[..k] + [y];
      var stored := if y in out then out[y] else [];
      out := out[y := stored + [Ranking.Ranking(p, classes)]];
      k := k + 1;
    }
  }

  /** Under label y there are as many rankings as probes labelled y. */
  lemma {:induction false} GroupedCount<L>(yProba: seq<seq<real>>, yTest: seq<L>, classes: seq<L>, y: L, n: nat)
    requires n <= |yProba| && n <= |yTest|
    ensures |Grouped(yProba, yTest, classes, y, n)| == multiset(yTest[..n])[y]
  {
    if n > 0 {
      GroupedCount(yProba, yTest, classes, y, n - 1);
      assert yTest[..n] == yTest[..n - 1] + [yTest[n - 1]];
    }
  }

  /** The k-th ranking under label y is the ranking of the k-th probe labelled
      y; those probes are listed in increasing order, and a probe is listed
      iff it is labelled y. */
  lemma {:induction false} GroupedProbes<L>(yProba: seq<seq<real>>, yTest: seq<L>, classes: seq<L>, y: L, n: nat)
    requires n <= |yProba| && n <= |yTest|
    ensures var g, ps := Grouped(yProba, yTest, classes, y, n), ProbesOf(yTest, y, n);
      && |g| == |ps|
      && (forall k :: 0 <= k < |ps| ==> g[k] == Ranking.Ranking(yProba[ps[k]], classes))
      && (forall a, b :: 0 <= a < b < |ps| ==> ps[a] < ps[b])
      && (forall i :: 0 <= i < n ==> (i in ps <==> yTest[i] == y))
  {
    if n > 0 {
      GroupedProbes(yProba, yTest, classes, y, n - 1);
    }
  }

  /** With one probability per class, every stored ranking lists each class,
      by non-increasing probability of its probe, ties in class order. */
  lemma GroupedSorted<L>(yProba: seq<seq<real>>, yTest: seq<L>, classes: seq<L>, y: L, n: nat, k: nat)
    requires n <= |yProba| && n <= |yTest|
    requires forall i :: 0 <= i < n ==> |yProba[i]| == |classes|
    requires k < |Grouped(yProba, yTest, classes, y, n)|
    ensures exists i :: 0 <= i < n && yTest[i] == y && Grouped(yProba, yTest, classes, y, n)[k] == Ranking.Ranking(yProba[i], classes)
    ensures forall c :: c in classes ==> c in Grouped(yProba, yTest, classes, y, n)[k]
  {
    GroupedProbes(yProba, yTest, classes, y, n);
    var i := ProbesOf(yTest, y, n)[k];
    assert i in ProbesOf(yTest, y, n);
    Ranking.RankingSorted(yProba[i], classes);
  }

  /** The main block of the features manager prints, for each probe, its
      label and its ranking. */
  function ProbeRankings<L>(yProba: seq<seq<real>>, yTest: seq<L>, classes: seq<L>): (r: seq<(L, seq<L>)>)
    ensures |r| == Probes(yProba, yTest)
    ensures forall k :: 0 <= k < |r| ==> r[k].0 == yTest[k] && r[k].1 == Ranking.Ranking(yProba[k], classes)
  {
    var n := Probes(yProba, yTest);
    seq(n, k requires 0 <= k < n => (yTest[k], Ranking.Ranking(yProba[k], classes)))
  }

  /** The stored rankings are the printed ones, grouped: under label y, the
      printed rankings of the probes labelled y, in printing order. */
  lemma GroupedArePrinted<L>(yProba: seq<seq<real>>, yTest: seq<L>, classes: seq<L>, y: L)
    ensures var n := Probes(yProba, yTest);
      var g, ps, printed := Grouped(yProba, yTest, classes, y, n), ProbesOf(yTest, y, n), ProbeRankings(yProba, yTest, classes);
      |g| == |ps| && forall k :: 0 <= k < |ps| ==> printed[ps[k]] == (y, g[k])
  {
    var n := Probes(yProba, yTest);
    GroupedProbes(yProba, yTest, classes, y, n);
    var ps := ProbesOf(yTest, y, n);
    forall k | 0 <= k < |ps|
      ensures yTest[ps[k]] == y
    {
      assert ps[k] in ps;
    }
  }
}
