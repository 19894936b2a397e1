/** The point tables the data manager builds (pandas data frames in the
    original), one row per captured point, and the boolean-mask row selection
    that both `get_item_tseries` (`id == item_id`) and the train/test split
    (`id.isin(ids)`) perform. */
module Tables {
  import opened Wrappers
  import opened Records

  /** A row of a point table. The movement, touch-down and touch-up tables have
      a time column; the sampled table does not. `id` is the observation id
      column (named `item_id` in one copy of the code and `observation_id` in
      the other). */
  datatype Row =
    | Timed(id: int, time: Option<int>, component: int, x: real, y: real)
    | Sampled(id: int, component: int, x: real, y: real)

  /** The rows appended for one capture to a timed table. */
  function TimedRows(points: seq<Point>, id: int): (r: seq<Row>)
    ensures |r| == |points|
    ensures forall k :: 0 <= k < |r| ==>
      && r[k].Timed? && r[k].id == id && r[k].time == points[k].time
      && r[k].component == points[k].component && r[k].x == points[k].x && r[k].y == points[k].y
  {
    seq(|points|, k requires 0 <= k < |points| =>
      Timed(id, points[k].time, points[k].component, points[k].x, points[k].y))
  }

  /** The rows appended for one capture to the sampled table. */
  function SampledRows(points: seq<Point>, id: int): (r: seq<Row>)
    ensures |r| == |points|
    ensures forall k :: 0 <= k < |r| ==>
      && r[k].Sampled? && r[k].id == id
      && r[k].component == points[k].component && r[k].x == points[k].x && r[k].y == points[k].y
  {
    seq(|points|, k requires 0 <= k < |points| =>
      Sampled(id, points[k].component, points[k].x, points[k].y))
  }

  /** `table.loc[table[id].isin(ids)]`: the rows whose id is in `ids`, in table order. */
  function Where(rows: seq<Row>, ids: set<int>): (r: seq<Row>)
    ensures forall row :: row in r <==> row in rows && row.id in ids
  {
    if |rows| == 0 then []
    else
      var last := rows[|rows| - 1];
      assert rows == rows[..|rows| - 1] + [last];
      Where(rows[..|rows| - 1], ids) + (if last.id in ids then [last] else [])
  }

  /** `get_item_tseries(table, item_id)`: `table.loc[table[id] == item_id]`. */
  function GetItemTseries(rows: seq<Row>, itemId: int): (r: seq<Row>)
    ensures forall row :: row in r <==> row in rows && row.id == itemId
  {
    Where(rows, {itemId})
  }

  /** The positions of the selected rows, as an increasing list of indices. */
  function Positions(rows: seq<Row>, ids: set<int>): (ps: seq<nat>)
    ensures forall k :: 0 <= k < |ps| ==> ps[k] < |rows|
  {
    if |rows| == 0 then []
    else
      Positions(rows[..|rows| - 1], ids) + (if rows[|rows| - 1].id in ids then [|rows| - 1] else [])
  }

  /** The selection keeps exactly the rows with a chosen id, in their original
      order: its k-th row is the row at the k-th selected position, the
      positions increase, and a position is selected iff its row's id is chosen. */
  lemma WhereInOrder(rows: seq<Row>, ids: set<int>)
    ensures |Where(rows, ids)| == |Positions(rows, ids)|
    ensures forall k :: 0 <= k < |Positions(rows, ids)| ==>
      Where(rows, ids)[k] == rows[Positions(rows, ids)[k]]
    ensures forall a, b :: 0 <= a < b < |Positions(rows, ids)| ==>
      Positions(rows, ids)[a] < Positions(rows, ids)[b]
    ensures forall i :: 0 <= i < |rows| ==> (i in Positions(rows, ids) <==> rows[i].id in ids)
  {
    WherePositions(rows, ids);
    PositionsIncrease(rows, ids);
    PositionsSelected(rows, ids);
  }

  lemma {:induction false} WherePositions(rows: seq<Row>, ids: set<int>)
    ensures |Where(rows, ids)| == |Positions(rows, ids)|
    ensures forall k :: 0 <= k < |Positions(rows, ids)| ==>
      Where(rows, ids)[k] == rows[Positions(rows, ids)[k]]
  {
    if |rows| > 0 {
      var init := rows[..|rows| - 1];
      WherePositions(init, ids);
      var ps := Positions(init, ids);
      var w := Where(init, ids);
      var last := rows[|rows| - 1];
      assert Where(rows, ids) == w + (if last.id in ids then [last] else []);
      assert Positions(rows, ids) == ps + (if last.id in ids then [|rows| - 1] else []);
      forall k | 0 <= k < |ps|
        ensures Where(rows, ids)[k] == rows[Positions(rows, ids)[k]]
      {
        assert init[ps[k]] == rows[ps[k]];
      }
    }
  }

  lemma {:induction false} PositionsIncrease(rows: seq<Row>, ids: set<int>)
    ensures forall a, b :: 0 <= a < b < |Positions(rows, ids)| ==>
      Positions(rows, ids)[a] < Positions(rows, ids)[b]
  {
    if |rows| > 0 {
      PositionsIncrease(rows[..|rows| - 1], ids);
    }
  }

  lemma {:induction false} PositionsSelected(rows: seq<Row>, ids: set<int>)
    ensures forall i :: 0 <= i < |rows| ==> (i in Positions(rows, ids) <==> rows[i].id in ids)
  {
    if |rows| > 0 {
      var init := rows[..|rows| - 1];
      PositionsSelected(init, ids);
      forall i | 0 <= i < |init|
        ensures init[i] == rows[i]
      {
      }
    }
  }

  /** Selecting from a concatenation selects from each part. */
  lemma {:induction false} WhereConcat(a: seq<Row>, b: seq<Row>, ids: set<int>)
    ensures Where(a + b, ids) == Where(a, ids) + Where(b, ids)
  {
    if |b| == 0 {
      assert a + b == a;
    } else {
      var bInit := b[..|b| - 1];
      assert (a + b)[..|a + b| - 1] == a + bInit;
      WhereConcat(a, bInit, ids);
    }
  }

  /** A block of rows that all carry one id is kept whole or dropped whole. */
  lemma {:induction false} WhereUniform(rows: seq<Row>, id: int, ids: set<int>)
    requires forall k :: 0 <= k < |rows| ==> rows[k].id == id
    ensures Where(rows, ids) == if id in ids then rows else []
  {
    if |rows| > 0 {
      var n := |rows| - 1;
      WhereUniform(rows[..n], id, ids);
      assert rows == rows[..n] + [rows[n]];
    }
  }

  /** With disjoint id sets the two selections share no row position, and
      together they hold, counted with multiplicity, exactly the rows whose
      id is in either set. */
  lemma {:induction false} WherePartition(rows: seq<Row>, a: set<int>, b: set<int>)
    requires a !! b
    ensures forall i :: !(i in Positions(rows, a) && i in Positions(rows, b))
    ensures multiset(Where(rows, a)) + multiset(Where(rows, b)) == multiset(Where(rows, a + b))
  {
    WhereInOrder(rows, a);
    WhereInOrder(rows, b);
    if |rows| > 0 {
      WherePartition(rows[..|rows| - 1], a, b);
    }
  }

  /** Selecting ids no row carries yields nothing. */
  lemma {:induction false} WhereNone(rows: seq<Row>, ids: set<int>)
    requires forall k :: 0 <= k < |rows| ==> rows[k].id !in ids
    ensures Where(rows, ids) == []
  {
    if |rows| > 0 {
      WhereNone(rows[..|rows| - 1], ids);
    }
  }
}
