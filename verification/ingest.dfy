/** Ingestion of a dataset folder by the data manager: the capture files of
    each directory are visited in natural order, those that pass the name
    filter are parsed, numbered 0, 1, 2, ... and appended to five per-capture
    lists and four point tables. `src/data_manager.py` and its older copy
    `src/data_manager_re.py` differ only in the user-id format. */
module Ingestion {
  import opened Wrappers
  import opened JsonValue
  import opened Records
  import opened Tables
  import opened Stores
  import Text
  import SnakeWire

  const JSON_EXTENSION: string := ".json"
  const CONFIGURATION_FILE: string := "configuration.json"
  const FILE_BLACK_LIST: seq<string> := [CONFIGURATION_FILE]

  predicate EndsWith(s: string, suffix: string) {
    |suffix| <= |s| && s[|s| - |suffix|..] == suffix
  }

  /** The file-name filter of `_read_data`. */
  predicate Ingestible(name: string) {
    |name| > 0 && EndsWith(name, JSON_EXTENSION) && name !in FILE_BLACK_LIST
  }

  /** A file is ingested iff its name ends with ".json" and it is not the
      configuration file (a name ending with ".json" is never empty). */
  lemma IngestibleIff(name: string)
    ensures Ingestible(name) <==>
      |name| >= 5 && name[|name| - 5..] == ".json" && name != "configuration.json"
  {
  }

  // ----- User ids -----

  /** The current format (`src/data_manager.py`) and the older one
      (`src/data_manager_re.py`). */
  datatype UserIdFormat = Current | Legacy

  /** `get_userid`: `"{item}_{item_index}_{name}_{surname}_({date})"` in the
      current format, `"{item}_{name}_{surname}_{date}"` in the older one. */
  function GetUserId(d: ItemData, format: UserIdFormat): (id: string)
    ensures |id| > |d.item| && id[..|d.item| + 1] == d.item + "_"
    ensures format.Current? ==> id[|id| - 1] == ')' && IntToString(d.itemIndex) <= id[|d.item| + 1..]
    ensures format.Current? ==>
      id[|d.item| + 1..] == IntToString(d.itemIndex) + "_" + d.sessionData.name + "_"
        + d.sessionData.surname + "_(" + d.sessionData.date + ")"
    ensures format.Legacy? ==>
      id[|d.item| + 1..] == d.sessionData.name + "_" + d.sessionData.surname + "_" + d.sessionData.date
  {
    var s := d.sessionData;
    match format
    case Current =>
      d.item + "_" + IntToString(d.itemIndex) + "_" + s.name + "_" + s.surname + "_(" + s.date + ")"
    case Legacy =>
      d.item + "_" + s.name + "_" + s.surname + "_" + s.date
  }

  /** The user-id function of a format. */
  function UserIds(format: UserIdFormat): ItemData -> string {
    d => GetUserId(d, format)
  }

  // ----- Visiting the folder -----

  /** One directory of the walk: its file names as listed, and the parsed
      JSON document of every file whose content is valid JSON. */
  datatype Dir = Dir(files: seq<string>, docs: map<string, Json>)

  /** A file selected for ingestion and the outcome of parsing its content. */
  datatype Visit = Visit(name: string, parsed: Result<ItemData>)

  function Load(d: Dir, name: string): Option<Json> {
    if name in d.docs then Some(d.docs[name]) else None
  }

  /** The selected files among `names` of directory d, in the order given. */
  function DirVisits(d: Dir, names: seq<string>, parse: Parser): seq<Visit> {
    if |names| == 0 then []
    else (if Ingestible(names[0]) then [Visit(names[0], parse(Load(d, names[0])))] else [])
         + DirVisits(d, names[1..], parse)
  }

  /** The files `_read_data` ingests: directory by directory in walk order,
      each directory's files in natural order, filtered by name. */
  function Visits(walk: seq<Dir>, parse: Parser): seq<Visit> {
    if |walk| == 0 then []
    else DirVisits(walk[0], Text.NaturalSort(walk[0].files), parse) + Visits(walk[1..], parse)
  }

  /** Reading a capture file: `json.load` (a decoding error is a ValueError)
      and `item_data_from_dict`. Ingestion is stated for any parser; the data
      manager is built with this one. */
  type Parser = Option<Json> -> Result<ItemData>

  /** `json.load` (a decoding error is a ValueError) and `item_data_from_dict`. */
  function Parse(doc: Option<Json>): Result<ItemData> {
    if doc.None? then Err(ValueError) else SnakeWire.ItemDataFromDict(doc.value)
  }

  /** Ingesting the visits vs from state s, numbering them from id: stops at
      the first file that does not parse. */
  function Ingest(s: Store, vs: seq<Visit>, id: int, userId: ItemData -> string): (Store, Outcome)
    decreases |vs|
  {
    if |vs| == 0 then (s, Pass)
    else
      match vs[0].parsed
      case Err(e) => (s, Fail(e))
      case Ok(d) => Ingest(Append(s, d, vs[0].name, id, userId), vs[1..], id + 1, userId)
  }

  /** The data manager; its constructor starts from empty lists and tables. */
  class DataManager {
    const datasetName: string
    const format: UserIdFormat
    const parse: Parser

    var jsonObjs: seq<ItemData>
    var filesName: seq<string>
    var usersIds: seq<string>
    var observationId: seq<int>
    var items: seq<string>
    var tseriesMovementPoints: seq<Row>
    var tseriesTouchUpPoints: seq<Row>
    var tseriesTouchDownPoints: seq<Row>
    var seriesSampledPoints: seq<Row>

    function State(): Store
      reads this
    {
      Store(jsonObjs, filesName, usersIds, observationId, items,
            tseriesMovementPoints, tseriesTouchUpPoints, tseriesTouchDownPoints, seriesSampledPoints)
    }

    ghost predicate Valid()
      reads this
    {
      Consistent(State(), UserIds(format))
    }

    constructor(datasetName: string, format: UserIdFormat)
      ensures this.datasetName == datasetName && this.format == format && parse == Parse
      ensures State() == Empty && Valid()
    {
      this.datasetName := datasetName;
      this.format := format;
      this.parse := Parse;
      jsonObjs, filesName, usersIds, observationId, items := [], [], [], [], [];
      tseriesMovementPoints, tseriesTouchUpPoints, tseriesTouchDownPoints, seriesSampledPoints := [], [], [], [];
    }

    /** `_add_itemdata`: parse one file; on success append one entry to each
        list and the capture's rows to each table, on failure change nothing. */
    method AddItemData(doc: Option<Json>, jsonName: string, id: int) returns (outcome: Outcome)
      requires Valid()
      modifies this
      ensures Valid()
      ensures parse(doc).Err? ==> outcome == Fail(parse(doc).error) && State() == old(State())
      ensures parse(doc).Ok? ==>
        outcome == Pass && State() == Append(old(State()), parse(doc).value, jsonName, id, UserIds(format))
    {
      var parsed := parse(doc);
      if parsed.Err? {
        return Fail(parsed.error);
      }
      var d := parsed.value;
      AppendConsistent(State(), d, jsonName, id, UserIds(format));
      jsonObjs := jsonObjs + [d];
      items := items + [d.item];
      observationId := observationId + [id];
      usersIds := usersIds + [GetUserId(d, format)];
      filesName := filesName + [jsonName];
      tseriesMovementPoints := tseriesMovementPoints + TimedRows(d.movementPoints, id);
      tseriesTouchDownPoints := tseriesTouchDownPoints + TimedRows(d.touchDownPoints, id);
      tseriesTouchUpPoints := tseriesTouchUpPoints + TimedRows(d.touchUpPoints, id);
      seriesSampledPoints := seriesSampledPoints + SampledRows(d.sampledPoints, id);
      return Pass;
    }

    /** One pass of the inner loop of `_read_data`: file j of the sorted
        listing is ingested, with id `id`, when its name passes the filter. */
    method VisitFile(d: Dir, files: seq<string>, j: nat, id: int) returns (outcome: Outcome, next: int)
      requires Valid() && j < |files|
      modifies this
      ensures Valid()
      ensures Ingest(old(State()), DirVisits(d, files[j..], parse), id, UserIds(format)) ==
        if outcome.Fail? then (State(), outcome)
        else Ingest(State(), DirVisits(d, files[j + 1..], parse), next, UserIds(format))
      ensures outcome.Pass? ==>
        next + |DirVisits(d, files[j + 1..], parse)| == id + |DirVisits(d, files[j..], parse)|
    {
      var name := files[j];
      DirVisitsSplit(d, files, j, parse);
      if !Ingestible(name) {
        return Pass, id;
      }
      ghost var before := State();
      outcome := AddItemData(Load(d, name), name, id);
      IngestFirst(before, Visit(name, parse(Load(d, name))), DirVisits(d, files[j + 1..], parse), id,
                  UserIds(format), State(), outcome);
      next := id + 1;
    }

    /** The inner loop of `_read_data`: the files of one directory, in
        natural order, numbered from `nextId`; `count` is the counter after it. */
    method ReadDirectory(d: Dir, nextId: int) returns (outcome: Outcome, count: int)
      requires Valid()
      modifies this
      ensures Valid()
      ensures (State(), outcome) == Ingest(old(State()), DirVisits(d, Text.NaturalSort(d.files), parse), nextId, UserIds(format))
      ensures outcome.Pass? ==> count == nextId + |DirVisits(d, Text.NaturalSort(d.files), parse)|
    {
      var files := Text.NaturalSort(d.files);
      ghost var u := UserIds(format);
      ghost var goal := Ingest(State(), DirVisits(d, files, parse), nextId, u);
      count := nextId;
      var j := 0;
      assert files[j..] == files;
      while j < |files|
        invariant 0 <= j <= |files| && Valid()
        invariant Ingest(State(), DirVisits(d, files[j..], parse), count, u) == goal
        invariant count + |DirVisits(d, files[j..], parse)| == nextId + |DirVisits(d, files, parse)|
      {
        var o, next := VisitFile(d, files, j, count);
        if o.Fail? {
          return o, count;
        }
        count, j := next, j + 1;
      }
      assert files[j..] == [];
      return Pass, count;
    }

    /** One pass of the outer loop of `_read_data`: directory w of the walk,
        its files numbered from `id`. */
    method VisitDirectory(walk: seq<Dir>, w: nat, id: int) returns (outcome: Outcome, next: int)
      requires Valid() && w < |walk|
      modifies this
      ensures Valid()
      ensures Ingest(old(State()), Visits(walk[w..], parse), id, UserIds(format)) ==
        if outcome.Fail? then (State(), outcome)
        else Ingest(State(), Visits(walk[w + 1..], parse), next, UserIds(format))
    {
      VisitsSplit(walk, w, parse);
      ghost var before := State();
      outcome, next := ReadDirectory(walk[w], id);
      IngestStep(before, DirVisits(walk[w], Text.NaturalSort(walk[w].files), parse),
                 Visits(walk[w + 1..], parse), id, UserIds(format), State(), outcome, next);
    }

    /** `_read_data`: fails when the dataset folder is missing; otherwise
        ingests the walk's files with ids counting up from 0. */
    method ReadData(datasetExists: bool, walk: seq<Dir>) returns (outcome: Outcome)
      requires Valid()
      modifies this
      ensures Valid()
      ensures !datasetExists ==> outcome == Fail(AssertionError) && State() == old(State())
      ensures datasetExists ==> (State(), outcome) == Ingest(old(State()), Visits(walk, parse), 0, UserIds(format))
    {
      if !datasetExists {
        return Fail(AssertionError);
      }
      ghost var u := UserIds(format);
      ghost var goal := Ingest(State(), Visits(walk, parse), 0, u);
      var count := 0;
      var w := 0;
      assert walk[w..] == walk;
      while w < |walk|
        invariant 0 <= w <= |walk| && Valid()
        invariant Ingest(State(), Visits(walk[w..], parse), count, u) == goal
      {
        var o, next := VisitDirectory(walk, w, count);
        if o.Fail? {
          return o;
        }
        count, w := next, w + 1;
      }
      assert walk[w..] == [];
      return Pass;
    }
  }

  // ----- Properties of ingestion -----

  function Range(from: int, n: nat): (r: seq<int>)
    ensures |r| == n && forall k :: 0 <= k < n ==> r[k] == from + k
  {
    seq(n, k requires 0 <= k < n => from + k)
  }

  function Names(vs: seq<Visit>): (r: seq<string>)
    ensures |r| == |vs| && forall k :: 0 <= k < |vs| ==> r[k] == vs[k].name
  {
    seq(|vs|, k requires 0 <= k < |vs| => vs[k].name)
  }

  /** The number of leading visits that parse: ingestion stops at the next one. */
  function Parsed(vs: seq<Visit>): (n: nat)
    ensures n <= |vs|
    ensures forall k :: 0 <= k < n ==> vs[k].parsed.Ok?
    ensures n < |vs| ==> vs[n].parsed.Err?
  {
    if |vs| == 0 || vs[0].parsed.Err? then 0 else 1 + Parsed(vs[1..])
  }

  /** The captures parsed from the first n visits. */
  function Captures(vs: seq<Visit>, n: nat): (r: seq<ItemData>)
    requires n <= Parsed(vs)
    ensures |r| == n
  {
    seq(n, k requires 0 <= k < n => vs[k].parsed.value)
  }

  /** Ingestion succeeds iff every visited file parses, and otherwise reports
      the error of the first file that does not. */
  lemma {:induction false} IngestOutcome(s: Store, vs: seq<Visit>, id: int, userId: ItemData -> string)
    decreases |vs|
    ensures Ingest(s, vs, id, userId).1 ==
      if Parsed(vs) == |vs| then Pass else Fail(vs[Parsed(vs)].parsed.error)
  {
    if |vs| > 0 && vs[0].parsed.Ok? {
      IngestOutcome(Append(s, vs[0].parsed.value, vs[0].name, id, userId), vs[1..], id + 1, userId);
    }
  }

  /** Ingesting a + b ingests a, then b numbered on from a's last id,
      unless a fails. */
  lemma {:induction false} IngestConcat(s: Store, a: seq<Visit>, b: seq<Visit>, id: int, userId: ItemData -> string)
    decreases |a|
    ensures Ingest(s, a + b, id, userId) ==
      var (t, o) := Ingest(s, a, id, userId);
      if o.Pass? then Ingest(t, b, id + |a|, userId) else (t, o)
  {
    if |a| == 0 {
      assert a + b == b;
    } else {
      assert (a + b)[0] == a[0] && (a + b)[1..] == a[1..] + b;
      if a[0].parsed.Ok? {
        var s1 := Append(s, a[0].parsed.value, a[0].name, id, userId);
        IngestConcat(s1, a[1..], b, id + 1, userId);
      }
    }
  }

  /** One directory of the walk: once its visits `here` have been ingested
      into (t, o), what remains is the rest of the walk, numbered on. */
  lemma IngestStep(s: Store, here: seq<Visit>, later: seq<Visit>, id: int, userId: ItemData -> string,
                   t: Store, o: Outcome, count: int)
    requires (t, o) == Ingest(s, here, id, userId)
    requires o.Pass? ==> count == id + |here|
    ensures Ingest(s, here + later, id, userId) == if o.Pass? then Ingest(t, later, count, userId) else (t, o)
  {
    IngestConcat(s, here, later, id, userId);
  }

  /** The walk from directory w on: directory w's files, then the rest. */
  lemma VisitsSplit(walk: seq<Dir>, w: nat, parse: Parser)
    requires w < |walk|
    ensures Visits(walk[w..], parse) ==
      DirVisits(walk[w], Text.NaturalSort(walk[w].files), parse) + Visits(walk[w + 1..], parse)
  {
    assert walk[w..][0] == walk[w] && walk[w..][1..] == walk[w + 1..];
  }

  /** The listing from position j on: file j if it is selected, then the rest. */
  lemma DirVisitsSplit(d: Dir, names: seq<string>, j: nat, parse: Parser)
    requires j < |names|
    ensures Ingestible(names[j]) ==>
      DirVisits(d, names[j..], parse) == [Visit(names[j], parse(Load(d, names[j])))] + DirVisits(d, names[j + 1..], parse)
    ensures !Ingestible(names[j]) ==> DirVisits(d, names[j..], parse) == DirVisits(d, names[j + 1..], parse)
  {
    assert names[j..][0] == names[j] && names[j..][1..] == names[j + 1..];
  }

  /** One file of a directory: once visit v has been added to s, giving
      (t, o), what remains is the rest of the listing, numbered on. */
  lemma IngestFirst(s: Store, v: Visit, rest: seq<Visit>, id: int, userId: ItemData -> string,
                    t: Store, o: Outcome)
    requires v.parsed.Err? ==> o == Fail(v.parsed.error) && t == s
    requires v.parsed.Ok? ==> o == Pass && t == Append(s, v.parsed.value, v.name, id, userId)
    ensures Ingest(s, [v] + rest, id, userId) == if o.Fail? then (t, o) else Ingest(t, rest, id + 1, userId)
  {
    assert ([v] + rest)[0] == v && ([v] + rest)[1..] == rest;
  }

  /** The captures of the list are the parsed files, in visiting order. */
  lemma {:induction false} IngestCaptures(s: Store, vs: seq<Visit>, id: int, userId: ItemData -> string)
    decreases |vs|
    ensures Ingest(s, vs, id, userId).0.jsonObjs == s.jsonObjs + Captures(vs, Parsed(vs))
  {
    if |vs| > 0 && vs[0].parsed.Ok? {
      var s1 := Append(s, vs[0].parsed.value, vs[0].name, id, userId);
      assert Ingest(s, vs, id, userId) == Ingest(s1, vs[1..], id + 1, userId);
      IngestCaptures(s1, vs[1..], id + 1, userId);
      var n := Parsed(vs);
      assert n == 1 + Parsed(vs[1..]);
      assert Captures(vs, n) == [vs[0].parsed.value] + Captures(vs[1..], n - 1);
    } else {
      assert Parsed(vs) == 0;
      assert Captures(vs, 0) == [];
    }
  }

  /** The parsed files receive the ids id, id+1, ... in visiting order, so
      the counter ends at id plus the number of ingested files. */
  lemma {:induction false} IngestIds(s: Store, vs: seq<Visit>, id: int, userId: ItemData -> string)
    decreases |vs|
    ensures Ingest(s, vs, id, userId).0.observationId == s.observationId + Range(id, Parsed(vs))
  {
    if |vs| > 0 && vs[0].parsed.Ok? {
      var s1 := Append(s, vs[0].parsed.value, vs[0].name, id, userId);
      assert Ingest(s, vs, id, userId) == Ingest(s1, vs[1..], id + 1, userId);
      IngestIds(s1, vs[1..], id + 1, userId);
      var n := Parsed(vs);
      assert n == 1 + Parsed(vs[1..]);
      assert Range(id, n) == [id] + Range(id + 1, n - 1);
    } else {
      assert Parsed(vs) == 0;
      assert Range(id, 0) == [];
    }
  }

  /** The file names of the parsed files are appended in visiting order. */
  lemma {:induction false} IngestNames(s: Store, vs: seq<Visit>, id: int, userId: ItemData -> string)
    decreases |vs|
    ensures Ingest(s, vs, id, userId).0.filesName == s.filesName + Names(vs[..Parsed(vs)])
  {
    if |vs| > 0 && vs[0].parsed.Ok? {
      var s1 := Append(s, vs[0].parsed.value, vs[0].name, id, userId);
      assert Ingest(s, vs, id, userId) == Ingest(s1, vs[1..], id + 1, userId);
      IngestNames(s1, vs[1..], id + 1, userId);
      var n := Parsed(vs);
      assert n == 1 + Parsed(vs[1..]);
      assert vs[..n] == [vs[0]] + vs[1..][..n - 1];
      assert Names(vs[..n]) == [vs[0].name] + Names(vs[1..][..n - 1]);
    } else {
      assert Parsed(vs) == 0;
      assert Names(vs[..0]) == [];
    }
  }

  /** Ingestion never changes earlier rows: every table only grows at its end. */
  lemma {:induction false} IngestTables(s: Store, vs: seq<Visit>, id: int, userId: ItemData -> string, c: Category)
    decreases |vs|
    ensures s.TableOf(c) <= Ingest(s, vs, id, userId).0.TableOf(c)
  {
    if |vs| > 0 && vs[0].parsed.Ok? {
      var s1 := Append(s, vs[0].parsed.value, vs[0].name, id, userId);
      assert Ingest(s, vs, id, userId) == Ingest(s1, vs[1..], id + 1, userId);
      IngestTables(s1, vs[1..], id + 1, userId, c);
      assert s.TableOf(c) <= s1.TableOf(c);
    }
  }

  /** Ingestion keeps the lists aligned and the tables built from them. */
  lemma {:induction false} IngestConsistent(s: Store, vs: seq<Visit>, id: int, userId: ItemData -> string)
    decreases |vs|
    requires Consistent(s, userId)
    ensures Consistent(Ingest(s, vs, id, userId).0, userId)
  {
    if |vs| > 0 && vs[0].parsed.Ok? {
      var d := vs[0].parsed.value;
      AppendConsistent(s, d, vs[0].name, id, userId);
      IngestConsistent(Append(s, d, vs[0].name, id, userId), vs[1..], id + 1, userId);
    }
  }

  /** Ingesting into a fresh data manager: when every file parses, the ids
      are 0 .. n-1 in visiting order, the file names are the visited ones and
      the captures are the parsed files. */
  lemma FreshIngest(vs: seq<Visit>, userId: ItemData -> string)
    requires Parsed(vs) == |vs|
    ensures var t := Ingest(Empty, vs, 0, userId).0;
      && t.observationId == Range(0, |vs|)
      && t.filesName == Names(vs)
      && t.jsonObjs == Captures(vs, |vs|)
  {
    IngestIds(Empty, vs, 0, userId);
    IngestNames(Empty, vs, 0, userId);
    IngestCaptures(Empty, vs, 0, userId);
    assert vs[..|vs|] == vs;
  }

  /** After ingesting into a fresh data manager (even one that stopped at a
      bad file), `get_item_tseries` with the id of capture k returns exactly
      that capture's points of the table's category, in order. */
  lemma FreshItemTseries(vs: seq<Visit>, userId: ItemData -> string, c: Category, k: nat)
    requires k < |Ingest(Empty, vs, 0, userId).0.jsonObjs|
    ensures var t := Ingest(Empty, vs, 0, userId).0;
      GetItemTseries(t.TableOf(c), k) == RowsOf(t.jsonObjs[k], k, c)
  {
    IngestIds(Empty, vs, 0, userId);
    IngestConsistent(Empty, vs, 0, userId);
    var t := Ingest(Empty, vs, 0, userId).0;
    assert t.observationId[k] == k;
    TableSelect(t.jsonObjs, t.observationId, c, k);
  }

  /** The two copies of the data manager ingest the same files into the same
      lists and tables; only the user ids differ. */
  lemma {:induction false} FormatsDifferOnlyInUserIds(
    s1: Store, s2: Store, vs: seq<Visit>, id: int, u1: ItemData -> string, u2: ItemData -> string)
    decreases |vs|
    requires s1.(usersIds := []) == s2.(usersIds := [])
    ensures Ingest(s1, vs, id, u1).1 == Ingest(s2, vs, id, u2).1
    ensures Ingest(s1, vs, id, u1).0.(usersIds := []) == Ingest(s2, vs, id, u2).0.(usersIds := [])
  {
    if |vs| > 0 && vs[0].parsed.Ok? {
      var d := vs[0].parsed.value;
      FormatsDifferOnlyInUserIds(
        Append(s1, d, vs[0].name, id, u1), Append(s2, d, vs[0].name, id, u2), vs[1..], id + 1, u1, u2);
    }
  }

  /** v is a file of directory d that passes the name filter, with d's content. */
  predicate SelectedIn(d: Dir, v: Visit, parse: Parser) {
    v.name in d.files && Ingestible(v.name) && v.parsed == parse(Load(d, v.name))
  }

  /** A file is visited iff it is listed in one of the walk's directories and
      passes the name filter; its content is that directory's document. */
  lemma {:induction false} VisitsSelected(walk: seq<Dir>, parse: Parser, v: Visit)
    ensures v in Visits(walk, parse) <==> exists w :: 0 <= w < |walk| && SelectedIn(walk[w], v, parse)
  {
    if |walk| > 0 {
      var here := DirVisits(walk[0], Text.NaturalSort(walk[0].files), parse);
      var later := Visits(walk[1..], parse);
      assert Visits(walk, parse) == here + later;
      VisitsSelected(walk[1..], parse, v);
      DirVisitsSelected(walk[0], Text.NaturalSort(walk[0].files), parse, v);
      assert v in here <==> SelectedIn(walk[0], v, parse) by {
        var files := Text.NaturalSort(walk[0].files);
        assert v.name in multiset(files) <==> v.name in multiset(walk[0].files);
      }
      if v in later {
        var w :| 0 <= w < |walk[1..]| && SelectedIn(walk[1..][w], v, parse);
        assert SelectedIn(walk[w + 1], v, parse);
      }
      if w :| 0 <= w < |walk| && SelectedIn(walk[w], v, parse) {
        if w > 0 {
          assert walk[1..][w - 1] == walk[w];
        }
      }
    }
  }

  lemma {:induction false} DirVisitsSelected(d: Dir, names: seq<string>, parse: Parser, v: Visit)
    ensures v in DirVisits(d, names, parse) <==> v.name in names && Ingestible(v.name) && v.parsed == parse(Load(d, v.name))
  {
    if |names| > 0 {
      DirVisitsSelected(d, names[1..], parse, v);
      assert v.name in names <==> v.name == names[0] || v.name in names[1..] by {
        assert names == [names[0]] + names[1..];
      }
    }
  }

  /** Within one directory, the files are visited in natural order. */
  lemma DirVisitsInNaturalOrder(d: Dir, parse: Parser)
    ensures Names(DirVisits(d, Text.NaturalSort(d.files), parse)) == SelectNames(Text.NaturalSort(d.files))
    ensures Text.NaturallySorted(Text.NaturalSort(d.files))
  {
    DirVisitsNames(d, Text.NaturalSort(d.files), parse);
  }

  /** The ingestible names of a listing, in the listing's order. */
  function SelectNames(names: seq<string>): seq<string> {
    if |names| == 0 then []
    else (if Ingestible(names[0]) then [names[0]] else []) + SelectNames(names[1..])
  }

  lemma {:induction false} DirVisitsNames(d: Dir, names: seq<string>, parse: Parser)
    ensures Names(DirVisits(d, names, parse)) == SelectNames(names)
  {
    if |names| > 0 {
      DirVisitsNames(d, names[1..], parse);
      var head := if Ingestible(names[0]) then [Visit(names[0], parse(Load(d, names[0])))] else [];
      assert Names(head + DirVisits(d, names[1..], parse)) == Names(head) + Names(DirVisits(d, names[1..], parse));
    }
  }
}
