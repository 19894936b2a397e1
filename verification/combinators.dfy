/** The validator combinators shared, line for line, by both JSON wrappers
    (`from_int`, `from_none`, `from_union`, `from_float`, `to_float`,
    `from_bool`, `from_list`), and the `Point` record they both parse the same
    way. A failed `assert` is an `Err(AssertionError)`. */
module Combinators {
  import opened Wrappers
  import opened JsonValue
  import opened Records

  /** `from_int`: accepts a Python int; a bool is not an int here. */
  function FromInt(x: Json): (r: Result<int>)
    ensures r.Ok? <==> x.JInt?
    ensures r.Ok? ==> r.value == x.i
    ensures r.Err? ==> r.error == AssertionError
  {
    if x.JInt? then Ok(x.i) else Err(AssertionError)
  }

  /** `from_int` as the first alternative of `Point.time`'s union. */
  function FromIntOpt(x: Json): (r: Result<Option<int>>)
    ensures r.Ok? <==> x.JInt?
    ensures r.Ok? ==> r.value == Some(x.i)
  {
    var i :- FromInt(x);
    Ok(Some(i))
  }

  /** `from_none`: accepts only None. */
  function FromNone(x: Json): (r: Result<Option<int>>)
    ensures r.Ok? <==> x.JNull?
    ensures r.Ok? ==> r.value == None
  {
    if x.JNull? then Ok(None) else Err(AssertionError)
  }

  /** `from_union`: the result of the first parser that succeeds; an
      assertion failure when none does. */
  function FromUnion<T>(fs: seq<Json -> Result<T>>, x: Json): (r: Result<T>)
    ensures r.Ok? <==> exists i :: 0 <= i < |fs| && fs[i](x).Ok?
    ensures r.Ok? ==> exists i :: 0 <= i < |fs| && r == fs[i](x)
                                  && forall j :: 0 <= j < i ==> fs[j](x).Err?
    ensures r.Err? ==> r.error == AssertionError
  {
    if |fs| == 0 then Err(AssertionError)
    else
      var first := fs[0](x);
      if first.Ok? then first
      else
        var rest := FromUnion(fs[1..], x);
        assert forall i :: 1 <= i < |fs| ==> fs[i] == fs[1..][i - 1];
        rest
  }

  /** `from_float`: accepts an int or a float (not a bool) and returns it as a float. */
  function FromFloat(x: Json): (r: Result<real>)
    ensures r.Ok? <==> x.JInt? || x.JFloat?
    ensures x.JInt? ==> r == Ok(x.i as real)
    ensures x.JFloat? ==> r == Ok(x.r)
    ensures r.Err? ==> r.error == AssertionError
  {
    match x
    case JInt(i) => Ok(i as real)
    case JFloat(f) => Ok(f)
    case _ => Err(AssertionError)
  }

  /** `to_float`: accepts only a float. */
  function ToFloat(x: Json): (r: Result<real>)
    ensures r.Ok? <==> x.JFloat?
    ensures r.Ok? ==> r.value == x.r
  {
    if x.JFloat? then Ok(x.r) else Err(AssertionError)
  }

  /** `from_bool`: accepts only a bool. */
  function FromBool(x: Json): (r: Result<bool>)
    ensures r.Ok? <==> x.JBool?
    ensures r.Ok? ==> r.value == x.b
  {
    if x.JBool? then Ok(x.b) else Err(AssertionError)
  }

  /** The comprehension `[f(y) for y in xs]`: stops at the first element that fails. */
  function MapAll<T>(f: Json -> Result<T>, xs: seq<Json>): (r: Result<seq<T>>)
    ensures r.Ok? <==> forall i :: 0 <= i < |xs| ==> f(xs[i]).Ok?
    ensures r.Ok? ==> |r.value| == |xs| && forall i :: 0 <= i < |xs| ==> f(xs[i]) == Ok(r.value[i])
    ensures r.Err? ==> exists i :: 0 <= i < |xs| && f(xs[i]) == Err(r.error)
  {
    if |xs| == 0 then Ok([])
    else
      var head :- f(xs[0]);
      var tail := MapAll(f, xs[1..]);
      assert forall i :: 1 <= i < |xs| ==> xs[i] == xs[1..][i - 1];
      if tail.Err? then Err(tail.error) else Ok([head] + tail.value)
  }

  /** `from_list`: fails on a non-list, otherwise applies `f` to every element in order. */
  function FromList<T>(f: Json -> Result<T>, x: Json): (r: Result<seq<T>>)
    ensures r.Ok? <==> x.JArray? && forall i :: 0 <= i < |x.items| ==> f(x.items[i]).Ok?
    ensures r.Ok? ==> |r.value| == |x.items|
                      && forall i :: 0 <= i < |x.items| ==> f(x.items[i]) == Ok(r.value[i])
  {
    if x.JArray? then MapAll(f, x.items) else Err(AssertionError)
  }

  /** `from_list(lambda x: to_class(C, x), xs)` inside `to_dict`: every element rendered. */
  function ToList<T>(g: T -> Json, xs: seq<T>): (r: Json)
    ensures r.JArray? && |r.items| == |xs|
    ensures forall i :: 0 <= i < |xs| ==> r.items[i] == g(xs[i])
  {
    JArray(seq(|xs|, i requires 0 <= i < |xs| => g(xs[i])))
  }

  /** A list rendered by `g` parses back with `f` when every element round-trips. */
  lemma ListRoundTrip<T>(f: Json -> Result<T>, g: T -> Json, xs: seq<T>)
    requires forall i :: 0 <= i < |xs| ==> f(g(xs[i])) == Ok(xs[i])
    ensures FromList(f, ToList(g, xs)) == Ok(xs)
  {
    var r := FromList(f, ToList(g, xs));
    assert r.Ok?;
    assert r.value == xs;
  }

  // ----- Point (identical in both wire variants) -----

  /** `from_union([from_int, from_none], x)`, the parser of `Point.time`. */
  function TimeFromJson(x: Json): (r: Result<Option<int>>)
    ensures r.Ok? <==> x.JInt? || x.JNull?
    ensures r.Ok? ==> r.value == (if x.JInt? then Some(x.i) else None)
  {
    var fs: seq<Json -> Result<Option<int>>> := [FromIntOpt, FromNone];
    assert fs[0](x) == FromIntOpt(x) && fs[1](x) == FromNone(x);
    FromUnion(fs, x)
  }

  const POINT_KEYS: seq<string> := ["time", "component", "x", "y"]

  /** `Point.from_dict`. */
  function PointFromDict(obj: Json): (r: Result<Point>)
    ensures r.Ok? <==>
      && obj.JObject?
      && (Lookup(obj.members, "time").JInt? || Lookup(obj.members, "time").JNull?)
      && Lookup(obj.members, "component").JInt?
      && (Lookup(obj.members, "x").JInt? || Lookup(obj.members, "x").JFloat?)
      && (Lookup(obj.members, "y").JInt? || Lookup(obj.members, "y").JFloat?)
    ensures r.Ok? ==>
      && r.value.time == (if Lookup(obj.members, "time").JInt? then Some(Lookup(obj.members, "time").i) else None)
      && r.value.component == Lookup(obj.members, "component").i
      && r.value.x == FromFloat(Lookup(obj.members, "x")).value
      && r.value.y == FromFloat(Lookup(obj.members, "y")).value
  {
    if !obj.JObject? then Err(AssertionError)
    else
      var time :- TimeFromJson(Lookup(obj.members, "time"));
      var component :- FromInt(Lookup(obj.members, "component"));
      var x :- FromFloat(Lookup(obj.members, "x"));
      var y :- FromFloat(Lookup(obj.members, "y"));
      Ok(Point(time, component, x, y))
  }

  /** The serialiser of `Point.time`: an int, or null for a missing time. */
  function TimeToJson(t: Option<int>): (r: Json)
    ensures TimeFromJson(r) == Ok(t)
  {
    match t
    case Some(i) => JInt(i)
    case None => JNull
  }

  /** `Point.to_dict`. */
  function PointToDict(p: Point): (r: Json)
    ensures r.JObject? && Keys(r.members) == POINT_KEYS
  {
    JObject([Member("time", TimeToJson(p.time)), Member("component", JInt(p.component)),
             Member("x", JFloat(p.x)), Member("y", JFloat(p.y))])
  }

  lemma PointRoundTrip(p: Point)
    ensures PointFromDict(PointToDict(p)) == Ok(p)
  {
    var ms := PointToDict(p).members;
    assert DistinctKeys(ms);
    LookupDistinct(ms, 0);
    LookupDistinct(ms, 1);
    LookupDistinct(ms, 2);
    LookupDistinct(ms, 3);
  }
}
