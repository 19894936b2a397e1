/** The state of a data manager as one value: five per-capture lists that
    stay aligned by index and four point tables, each the concatenation of
    the captures' rows in capture order. */
module Stores {
  import opened Records
  import opened Tables

  /** The four point tables. */
  datatype Category = MovementPoints | TouchDownPoints | TouchUpPoints | SampledPoints

  /** The rows one capture adds to the table of category c. */
  function RowsOf(d: ItemData, id: int, c: Category): seq<Row> {
    match c
    case MovementPoints => TimedRows(d.movementPoints, id)
    case TouchDownPoints => TimedRows(d.touchDownPoints, id)
    case TouchUpPoints => TimedRows(d.touchUpPoints, id)
    case SampledPoints => SampledRows(d.sampledPoints, id)
  }

  /** The table of category c for the captures `objs` numbered `ids`: each
      capture's rows, in capture order. */
  function Table(objs: seq<ItemData>, ids: seq<int>, c: Category): seq<Row>
    requires |objs| == |ids|
  {
    if |objs| == 0 then []
    else
      var n := |objs| - 1;
      Table(objs[..n], ids[..n], c) + RowsOf(objs[n], ids[n], c)
  }

  /** The fields of a data manager, as one value. */
  datatype Store = Store(
    jsonObjs: seq<ItemData>,
    filesName: seq<string>,
    usersIds: seq<string>,
    observationId: seq<int>,
    items: seq<string>,
    tseriesMovementPoints: seq<Row>,
    tseriesTouchUpPoints: seq<Row>,
    tseriesTouchDownPoints: seq<Row>,
    seriesSampledPoints: seq<Row>)
  {
    function TableOf(c: Category): seq<Row> {
      match c
      case MovementPoints => tseriesMovementPoints
      case TouchDownPoints => tseriesTouchDownPoints
      case TouchUpPoints => tseriesTouchUpPoints
      case SampledPoints => seriesSampledPoints
    }
  }

  const Empty: Store := Store([], [], [], [], [], [], [], [], [])

  /** The five per-capture lists are aligned by index, and every point table
      is the concatenation of the captures' rows in capture order. */
  ghost predicate Consistent(s: Store, userId: ItemData -> string) {
    && |s.filesName| == |s.jsonObjs| && |s.usersIds| == |s.jsonObjs|
    && |s.observationId| == |s.jsonObjs| && |s.items| == |s.jsonObjs|
    && (forall k :: 0 <= k < |s.jsonObjs| ==>
          s.items[k] == s.jsonObjs[k].item && s.usersIds[k] == userId(s.jsonObjs[k]))
    && (forall c: Category :: s.TableOf(c) == Table(s.jsonObjs, s.observationId, c))
  }

  /** `_add_itemdata` once the capture has been parsed. */
  function Append(s: Store, d: ItemData, name: string, id: int, userId: ItemData -> string): (r: Store)
    ensures r.jsonObjs == s.jsonObjs + [d] && r.filesName == s.filesName + [name]
    ensures r.usersIds == s.usersIds + [userId(d)] && r.observationId == s.observationId + [id]
    ensures r.items == s.items + [d.item]
    ensures forall c: Category :: r.TableOf(c) == s.TableOf(c) + RowsOf(d, id, c)
  {
    Store(
      s.jsonObjs + [d],
      s.filesName + [name],
      s.usersIds + [userId(d)],
      s.observationId + [id],
      s.items + [d.item],
      s.tseriesMovementPoints + TimedRows(d.movementPoints, id),
      s.tseriesTouchUpPoints + TimedRows(d.touchUpPoints, id),
      s.tseriesTouchDownPoints + TimedRows(d.touchDownPoints, id),
      s.seriesSampledPoints + SampledRows(d.sampledPoints, id))
  }

  /** Appending one capture keeps the lists aligned and the tables built from them. */
  lemma AppendConsistent(s: Store, d: ItemData, name: string, id: int, userId: ItemData -> string)
    requires Consistent(s, userId)
    ensures Consistent(Append(s, d, name, id, userId), userId)
  {
    var t := Append(s, d, name, id, userId);
    var n := |s.jsonObjs|;
    assert t.jsonObjs[..n] == s.jsonObjs && t.observationId[..n] == s.observationId;
    forall c: Category
      ensures t.TableOf(c) == Table(t.jsonObjs, t.observationId, c)
    {
      assert t.TableOf(c) == s.TableOf(c) + RowsOf(d, id, c);
    }
  }

  lemma RowsOfIds(d: ItemData, id: int, c: Category)
    ensures forall k :: 0 <= k < |RowsOf(d, id, c)| ==> RowsOf(d, id, c)[k].id == id
  {
  }

  /** Every row of a table carries the id of one of the captures. */
  lemma {:induction false} TableIds(objs: seq<ItemData>, ids: seq<int>, c: Category)
    requires |objs| == |ids|
    ensures forall j :: 0 <= j < |Table(objs, ids, c)| ==> Table(objs, ids, c)[j].id in ids
  {
    if |objs| > 0 {
      var n := |objs| - 1;
      var init := Table(objs[..n], ids[..n], c);
      var last := RowsOf(objs[n], ids[n], c);
      TableIds(objs[..n], ids[..n], c);
      RowsOfIds(objs[n], ids[n], c);
      var all: seq<Row> := init + last;
      forall j | 0 <= j < |all|
        ensures all[j].id in ids
      {
        if j < |init| {
          assert init[j].id in ids[..n];
        }
      }
    }
  }

  /** With distinct ids, selecting one capture's id from a table yields
      exactly that capture's rows, in point order. */
  lemma {:induction false} TableSelect(objs: seq<ItemData>, ids: seq<int>, c: Category, k: nat)
    requires |objs| == |ids| && k < |ids|
    requires forall a, b :: 0 <= a < b < |ids| ==> ids[a] != ids[b]
    ensures GetItemTseries(Table(objs, ids, c), ids[k]) == RowsOf(objs[k], ids[k], c)
  {
    var n := |objs| - 1;
    var init := Table(objs[..n], ids[..n], c);
    var last := RowsOf(objs[n], ids[n], c);
    var sel := {ids[k]};
    assert Table(objs, ids, c) == init + last;
    WhereConcat(init, last, sel);
    RowsOfIds(objs[n], ids[n], c);
    WhereUniform(last, ids[n], sel);
    if k == n {
      InitWithout(objs, ids, c);
    } else {
      DistinctPrefix(ids, n);
      TableSelect(objs[..n], ids[..n], c, k);
      assert objs[..n][k] == objs[k] && ids[..n][k] == ids[k];
      assert ids[n] !in sel;
    }
  }

  lemma DistinctPrefix(ids: seq<int>, n: nat)
    requires n <= |ids|
    requires forall a, b :: 0 <= a < b < |ids| ==> ids[a] != ids[b]
    ensures forall a, b :: 0 <= a < b < n ==> ids[..n][a] != ids[..n][b]
  {
  }

  /** No row of the earlier captures carries the last capture's id. */
  lemma InitWithout(objs: seq<ItemData>, ids: seq<int>, c: Category)
    requires |objs| == |ids| > 0
    requires forall a, b :: 0 <= a < b < |ids| ==> ids[a] != ids[b]
    ensures Where(Table(objs[..|objs| - 1], ids[..|objs| - 1], c), {ids[|objs| - 1]}) == []
  {
    var n := |objs| - 1;
    var init := Table(objs[..n], ids[..n], c);
    TableIds(objs[..n], ids[..n], c);
    forall j | 0 <= j < |init|
      ensures init[j].id !in {ids[n]}
    {
      var a :| 0 <= a < n && ids[..n][a] == init[j].id;
    }
    WhereNone(init, {ids[n]});
  }
}
